/** The token distributors' own code: batch objects updated in place, an asynchronous
    settlement split at its await, and the sweep loop. The ghost ledger follows
    Settlement.Step, and the real fields are proved to be what the ledger says. */
module DistributorService {
  import opened Protocol
  import opened Binary64
  import opened Amounts
  import opened Settlement
  import opened SettlementInvariant

  function Ids(ps: seq<Payout>): (ids: seq<JobId>)
    ensures |ids| == |ps|
    ensures forall k :: 0 <= k < |ps| ==> ids[k] == ps[k].jobId
  {
    seq(|ps|, k requires 0 <= k < |ps| => ps[k].jobId)
  }

  class PendingPayout {
    const workerPubkey: Pubkey
    var jobIds: seq<JobId>
    var totalBolt: real
    var retryCount: nat
    ghost var payouts: seq<Payout>
    ghost var expr: Sum

    ghost function View(): Batch
      reads this
    {
      Batch(workerPubkey, payouts, expr, retryCount)
    }

    /** The ids are those of the payouts, and the total is what their additions give in binary64. */
    ghost predicate Ok()
      reads this
    {
      jobIds == Ids(payouts) && totalBolt == Eval(expr)
    }

    constructor (jobId: JobId, amount: real, w: Pubkey, ghost serial: nat)
      ensures Ok() && View() == NewBatch(Payout(serial, w, jobId, amount))
    {
      workerPubkey, jobIds, totalBolt, retryCount := w, [jobId], Round(amount), 0;
      payouts, expr := [Payout(serial, w, jobId, amount)], Leaf(Payout(serial, w, jobId, amount));
    }

    method Push(jobId: JobId, amount: real, ghost p: Payout)
      requires Ok() && p.jobId == jobId && p.amount == amount
      modifies this
      ensures Ok() && View() == Join(old(View()), p)
    {
      jobIds := jobIds + [jobId];
      totalBolt := Plus(totalBolt, Round(amount));
      payouts, expr := payouts + [p], Add(expr, Leaf(p));
    }

    /** Put a failed batch in front of this one. */
    method Unshift(failed: PendingPayout)
      requires Ok() && failed.Ok() && failed != this
      modifies this
      ensures Ok() && View() == Merge(old(View()), failed.View())
    {
      jobIds := failed.jobIds + jobIds;
      totalBolt := Plus(totalBolt, failed.totalBolt);
      payouts, expr := failed.payouts + payouts, Add(expr, failed.expr);
    }
  }

  ghost predicate Distinct(ps: seq<PendingPayout>) {
    forall i, j :: 0 <= i < j < |ps| ==> ps[i] != ps[j]
  }

  /** No batch object is listed twice, in either list or in both. */
  ghost predicate Separate(ps: seq<PendingPayout>, fs: seq<PendingPayout>) {
    && Distinct(ps) && Distinct(fs)
    && forall i, j :: 0 <= i < |ps| && 0 <= j < |fs| ==> ps[i] != fs[j]
  }

  ghost function Views(ps: seq<PendingPayout>): (bs: seq<Batch>)
    reads ps
    ensures |bs| == |ps|
    ensures forall i :: 0 <= i < |ps| ==> bs[i] == ps[i].View()
  {
    seq(|ps|, i requires 0 <= i < |ps| reads ps => ps[i].View())
  }

  ghost predicate AllOk(ps: seq<PendingPayout>)
    reads ps
  {
    forall i :: 0 <= i < |ps| ==> ps[i].Ok()
  }

  lemma MovingKeepsSeparate(ps: seq<PendingPayout>, fs: seq<PendingPayout>, i: nat)
    requires Separate(ps, fs) && i < |ps|
    ensures Separate(Without(ps, i), fs + [ps[i]])
  {
    var ps' := Without(ps, i);
    forall k | 0 <= k < |ps'| ensures ps'[k] != ps[i] {
      assert ps'[k] == ps[if k < i then k else k + 1];
    }
  }

  lemma RemovingKeepsSeparate(ps: seq<PendingPayout>, fs: seq<PendingPayout>, k: nat)
    requires Separate(ps, fs) && k < |fs|
    ensures Separate(ps, Without(fs, k)) && fs[k] !in Without(fs, k) && fs[k] !in ps
  {
  }

  lemma ViewsWithout(ps: seq<PendingPayout>, i: nat)
    requires i < |ps| && AllOk(ps)
    ensures AllOk(Without(ps, i)) && Views(Without(ps, i)) == Without(Views(ps), i)
  {
  }

  lemma ViewsAppend(ps: seq<PendingPayout>, p: PendingPayout)
    requires AllOk(ps) && p.Ok()
    ensures AllOk(ps + [p]) && Views(ps + [p]) == Views(ps) + [p.View()]
  {
  }

  /** If only batch i differs from the values recorded before, one entry has changed. */
  lemma OneBatchChanged(ps: seq<PendingPayout>, before: seq<Batch>, i: nat)
    requires i < |ps| == |before|
    requires forall k :: 0 <= k < |ps| && k != i ==> ps[k].View() == before[k]
    ensures Views(ps) == before[i := ps[i].View()]
  {
  }

  /** The stored balances are the binary64 readings of the accounts. */
  ghost predicate BalancesMatch(balances: map<Pubkey, real>, accounts: seq<Account>) {
    && (forall w :: w in balances <==> IndexOfAccount(accounts, w) < |accounts|)
    && (forall w :: w in balances ==> balances[w] == Eval(accounts[IndexOfAccount(accounts, w)].sum))
  }

  /** The suspended loops are those of the ledger's sweeps. */
  ghost predicate QueuesMatch(queues: seq<seq<Pubkey>>, sweeps: seq<Sweep>) {
    |queues| == |sweeps| && forall i :: 0 <= i < |sweeps| ==> queues[i] == sweeps[i].queue
  }

  /** What the ledger says apart from batches: the flag, the sweeps and the balances. */
  ghost predicate RestMatches(settling: bool, queues: seq<seq<Pubkey>>, balances: map<Pubkey, real>, l: Ledger) {
    settling == l.settling && QueuesMatch(queues, l.sweeps) && BalancesMatch(balances, l.accounts)
  }

  class Distributor {
    const threshold: nat
    var pendingPayouts: seq<PendingPayout>
    var settling: bool
    var workerBalances: map<Pubkey, real>
    /** The suspended sweeps: the workers each of them still has to visit. */
    var sweeps: seq<seq<Pubkey>>
    /** The batches whose settlement is suspended at its await. */
    ghost var flying: seq<PendingPayout>
    ghost var ledger: Ledger

    /** The batch objects: all different, each in order, and the ones the ledger lists. */
    ghost predicate BatchesMatch()
      reads this, pendingPayouts, flying
    {
      && Separate(pendingPayouts, flying)
      && AllOk(pendingPayouts) && AllOk(flying)
      && Views(pendingPayouts) == ledger.pending
      && Views(flying) == Batches(ledger.inFlight)
    }

    ghost predicate Valid()
      reads this, pendingPayouts, flying
    {
      BatchesMatch() && RestMatches(settling, sweeps, workerBalances, ledger)
    }

    /** The threshold is 1 for BOLT and 5 for wrapped BOLT. */
    constructor (threshold: nat)
      ensures Valid() && ledger == EMPTY && this.threshold == threshold
    {
      this.threshold := threshold;
      pendingPayouts, settling, workerBalances, sweeps := [], false, map[], [];
      flying, ledger := [], EMPTY;
    }

    method Find(w: Pubkey) returns (i: nat)
      requires BatchesMatch()
      ensures i == IndexOfBatch(ledger.pending, w) && i <= |pendingPayouts|
    {
      i := 0;
      while i < |pendingPayouts|
        invariant 0 <= i <= |pendingPayouts|
        invariant forall k :: 0 <= k < i ==> pendingPayouts[k].workerPubkey != w
      {
        if pendingPayouts[i].workerPubkey == w {
          assert ledger.pending[i].worker == w;
          return;
        }
        i := i + 1;
      }
      assert forall k :: 0 <= k < |pendingPayouts| ==> ledger.pending[k].worker != w;
    }

    /** A batch leaves the map and its attempt begins. */
    method TakeOff(i: nat)
      requires BatchesMatch() && i < |pendingPayouts|
      modifies this`pendingPayouts, this`flying, this`ledger
      ensures BatchesMatch() && ledger == Begin(old(ledger), i)
    {
      var payout := pendingPayouts[i];
      MovingKeepsSeparate(pendingPayouts, flying, i);
      ViewsWithout(pendingPayouts, i);
      ViewsAppend(flying, payout);
      FlightsAfterAppend(ledger.inFlight, Flight(|ledger.attempts|, payout.View()));
      ledger := Begin(ledger, i);
      flying := flying + [payout];
      pendingPayouts := Without(pendingPayouts, i);
    }

    /** Settlement of one worker up to its first await. */
    method BeginSettle(w: Pubkey) returns (began: bool)
      requires BatchesMatch()
      modifies this`pendingPayouts, this`flying, this`ledger
      ensures BatchesMatch() && ledger == SettleWorker(old(ledger), w)
      ensures began <==> |ledger.attempts| > |old(ledger).attempts|
    {
      var i := Find(w);
      if i == |pendingPayouts| || pendingPayouts[i].jobIds == [] {
        assert i < |pendingPayouts| ==> pendingPayouts[i].Ok();
        return false;
      }
      assert pendingPayouts[i].Ok();
      TakeOff(i);
      began := true;
    }

    /** Add a payout to the batch that is pending at a position. */
    method JoinPayout(i: nat, jobId: JobId, amount: real, ghost p: Payout)
      requires BatchesMatch() && i < |pendingPayouts| && p.jobId == jobId && p.amount == amount
      modifies this`ledger, pendingPayouts
      ensures BatchesMatch()
      ensures ledger == old(ledger).(queued := old(ledger).queued + [p],
                                     pending := old(ledger).pending[i := Join(old(ledger).pending[i], p)])
    {
      var existing := pendingPayouts[i];
      existing.Push(jobId, amount, p);
      OneBatchChanged(pendingPayouts, ledger.pending, i);
      ledger := ledger.(queued := ledger.queued + [p], pending := Views(pendingPayouts));
      assert Views(flying) == old(Views(flying));
    }

    /** Start a new batch at the end of the map. */
    method StartBatch(w: Pubkey, jobId: JobId, amount: real)
      requires BatchesMatch()
      modifies this`pendingPayouts, this`ledger
      ensures BatchesMatch()
      ensures var p := Payout(|old(ledger).queued|, w, jobId, amount);
              ledger == old(ledger).(queued := old(ledger).queued + [p],
                                     pending := old(ledger).pending + [NewBatch(p)])
    {
      ghost var p := Payout(|ledger.queued|, w, jobId, amount);
      var payout := new PendingPayout(jobId, amount, w, |ledger.queued|);
      pendingPayouts := pendingPayouts + [payout];
      ledger := ledger.(queued := ledger.queued + [p], pending := ledger.pending + [NewBatch(p)]);
      assert Views(pendingPayouts) == ledger.pending;
      assert Views(flying) == old(Views(flying));
    }

    /** Add a payout to its worker's pending batch, or start a new batch. */
    method AddPayout(i: nat, w: Pubkey, jobId: JobId, amount: real)
      requires BatchesMatch() && i == IndexOfBatch(ledger.pending, w)
      modifies this`pendingPayouts, this`ledger, pendingPayouts
      ensures BatchesMatch() && ledger == Enqueue(old(ledger), Payout(|old(ledger).queued|, w, jobId, amount))
    {
      if i < |pendingPayouts| {
        JoinPayout(i, jobId, amount, Payout(|ledger.queued|, w, jobId, amount));
      } else {
        StartBatch(w, jobId, amount);
      }
    }

    /** Whether one more payout brings an existing batch to the threshold. */
    method FillsUp(i: nat) returns (reached: bool)
      requires BatchesMatch() && i <= |pendingPayouts|
      ensures reached == (i < |ledger.pending| && |ledger.pending[i].jobs| + 1 >= threshold)
    {
      if i == |pendingPayouts| {
        return false;
      }
      assert pendingPayouts[i].Ok() && pendingPayouts[i].View() == ledger.pending[i];
      reached := |pendingPayouts[i].jobIds| + 1 >= threshold;
    }

    method AddAndSettle(i: nat, w: Pubkey, jobId: JobId, amount: real, reached: bool)
      requires BatchesMatch() && i == IndexOfBatch(ledger.pending, w)
      modifies this`pendingPayouts, this`flying, this`ledger, pendingPayouts
      ensures BatchesMatch()
      ensures var l1 := Enqueue(old(ledger), Payout(|old(ledger).queued|, w, jobId, amount));
              ledger == if reached then SettleWorker(l1, w) else l1
    {
      AddPayout(i, w, jobId, amount);
      if reached {
        var _ := BeginSettle(w);
      }
    }

    /** Queueing as far as the batches are concerned. */
    method QueueBatches(w: Pubkey, jobId: JobId, amount: real)
      requires BatchesMatch()
      modifies this`pendingPayouts, this`flying, this`ledger, pendingPayouts
      ensures BatchesMatch() && ledger == QueueStep(old(ledger), threshold, w, jobId, amount)
    {
      var i := Find(w);
      var reached := FillsUp(i);
      QueueParts(ledger, threshold, w, jobId, amount, reached);
      AddAndSettle(i, w, jobId, amount, reached);
    }

    method QueuePayout(w: Pubkey, jobId: JobId, amount: real)
      requires Valid()
      modifies this`pendingPayouts, this`flying, this`ledger, pendingPayouts
      ensures Valid() && ledger == Step(old(ledger), threshold, Queue(w, jobId, amount))
    {
      QueueLeavesRest(settling, sweeps, workerBalances, ledger, threshold, w, jobId, amount);
      QueueBatches(w, jobId, amount);
    }

    /** Add a settled total to the worker's balance. */
    method CreditBalance(w: Pubkey, amount: real, ghost sum: Sum)
      requires BalancesMatch(workerBalances, ledger.accounts) && amount == Eval(sum)
      modifies this`workerBalances
      ensures BalancesMatch(workerBalances, Credit(ledger.accounts, w, sum))
    {
      var prev := if w in workerBalances then workerBalances[w] else 0.0;
      CreditMatches(workerBalances, ledger.accounts, w, sum);
      workerBalances := workerBalances[w := Plus(prev, amount)];
    }

    /** An attempt that has finished is no longer in flight. */
    ghost method Land(k: nat)
      requires BatchesMatch() && k < |flying|
      modifies this`flying, this`ledger
      ensures BatchesMatch()
      ensures ledger == old(ledger).(inFlight := Without(old(ledger).inFlight, k))
      ensures flying == Without(old(flying), k)
      ensures old(flying[k]) !in flying && old(flying[k]) !in pendingPayouts
    {
      RemovingKeepsSeparate(pendingPayouts, flying, k);
      ViewsWithout(flying, k);
      FlightsAfterWithout(ledger.inFlight, k);
      flying := Without(flying, k);
      ledger := ledger.(inFlight := Without(ledger.inFlight, k));
    }

    /** Bring the history up to date; the batches are as recorded already. */
    ghost method Record(l: Ledger)
      requires BatchesMatch() && l.pending == ledger.pending && l.inFlight == ledger.inFlight
      modifies this`ledger
      ensures BatchesMatch() && ledger == l
    {
      ledger := l;
    }

    /** The continuation of an attempt whose transaction was confirmed. */
    method Settled(payout: PendingPayout, ghost k: nat)
      requires Valid() && k < |flying| && flying[k] == payout
      modifies this`flying, this`ledger, this`workerBalances
      ensures Valid() && ledger == Step(old(ledger), threshold, Succeed(k))
    {
      ghost var b := ledger.inFlight[k].batch;
      assert payout.Ok() && payout.View() == b by {
        assert Views(flying)[k] == b;
      }
      CreditBalance(payout.workerPubkey, payout.totalBolt, payout.expr);
      Land(k);
      Record(SucceedStep(old(ledger), k));
    }

    /** Put a batch that has landed back into the map: in front of what is pending for its
        worker, or as it is. */
    method PutBack(payout: PendingPayout)
      requires BatchesMatch() && payout.Ok() && payout !in pendingPayouts && payout !in flying
      modifies this`pendingPayouts, this`ledger, pendingPayouts
      ensures BatchesMatch()
      ensures ledger == old(ledger).(pending := Requeue(old(ledger).pending, old(payout.View())))
    {
      var i := Find(payout.workerPubkey);
      if i < |pendingPayouts| {
        MergeInto(i, payout);
      } else {
        AppendBatch(payout);
      }
    }

    method MergeInto(i: nat, payout: PendingPayout)
      requires BatchesMatch() && payout.Ok() && payout !in pendingPayouts && payout !in flying
      requires i < |pendingPayouts|
      modifies this`ledger, pendingPayouts
      ensures BatchesMatch()
      ensures var bs := old(ledger).pending;
              ledger == old(ledger).(pending := bs[i := Merge(bs[i], old(payout.View()))])
    {
      var current := pendingPayouts[i];
      current.Unshift(payout);
      OneBatchChanged(pendingPayouts, ledger.pending, i);
      ledger := ledger.(pending := Views(pendingPayouts));
      assert Views(flying) == old(Views(flying));
    }

    method AppendBatch(payout: PendingPayout)
      requires BatchesMatch() && payout.Ok() && payout !in pendingPayouts && payout !in flying
      modifies this`pendingPayouts, this`ledger
      ensures BatchesMatch()
      ensures ledger == old(ledger).(pending := old(ledger).pending + [payout.View()])
    {
      pendingPayouts := pendingPayouts + [payout];
      ledger := ledger.(pending := ledger.pending + [payout.View()]);
      assert Views(pendingPayouts) == ledger.pending;
    }

    /** Count the failure of a batch that has landed, and queue it again if it may be retried. */
    method Requeued(payout: PendingPayout, ghost b: Batch)
      requires BatchesMatch() && payout.Ok() && payout !in pendingPayouts && payout !in flying && payout.View() == b
      modifies this`pendingPayouts, this`ledger, pendingPayouts, payout`retryCount
      ensures BatchesMatch()
      ensures ledger == old(ledger).(pending := if b.retries + 1 < MAX_RETRIES
                                                then Requeue(old(ledger).pending, FailedOnce(b))
                                                else old(ledger).pending)
    {
      BumpRetry(payout);
      assert payout.View() == FailedOnce(b);
      Retry(payout);
    }

    /** Take a failed batch out of the air and deal with it. */
    method LandFailed(payout: PendingPayout, ghost k: nat, ghost b: Batch)
      requires BatchesMatch() && k < |flying| && flying[k] == payout && b == ledger.inFlight[k].batch
      modifies this`pendingPayouts, this`flying, this`ledger, pendingPayouts, payout`retryCount
      ensures BatchesMatch()
      ensures ledger == old(ledger).(inFlight := Without(old(ledger).inFlight, k),
                                     pending := if b.retries + 1 < MAX_RETRIES
                                                then Requeue(old(ledger).pending, FailedOnce(b))
                                                else old(ledger).pending)
    {
      assert payout.Ok() && payout.View() == b by {
        assert Views(flying)[k] == b;
      }
      Land(k);
      Requeued(payout, b);
    }

    /** The continuation of an attempt whose transaction failed. */
    method Failed(payout: PendingPayout, ghost k: nat)
      requires Valid() && k < |flying| && flying[k] == payout
      modifies this`pendingPayouts, this`flying, this`ledger, pendingPayouts, payout`retryCount
      ensures Valid() && ledger == Step(old(ledger), threshold, Fail(k))
    {
      ghost var l := ledger;
      LandFailed(payout, k, l.inFlight[k].batch);
      FailParts(l, k);
      Record(FailStep(l, k));
    }

    /** Queue a failed batch again unless its retries are used up. */
    method Retry(payout: PendingPayout)
      requires BatchesMatch() && payout.Ok() && payout !in pendingPayouts && payout !in flying
      modifies this`pendingPayouts, this`ledger, pendingPayouts
      ensures BatchesMatch()
      ensures var b := old(payout.View());
              ledger == old(ledger).(pending := if b.retries < MAX_RETRIES then Requeue(old(ledger).pending, b)
                                                else old(ledger).pending)
    {
      if payout.retryCount < MAX_RETRIES {
        PutBack(payout);
      }
    }

    method BumpRetry(payout: PendingPayout)
      requires BatchesMatch() && payout.Ok() && payout !in pendingPayouts && payout !in flying
      modifies payout`retryCount
      ensures BatchesMatch() && payout.Ok()
      ensures payout.View() == old(payout.View()).(retries := old(payout.View()).retries + 1)
    {
      payout.retryCount := payout.retryCount + 1;
      assert Views(pendingPayouts) == ledger.pending;
      assert Views(flying) == Batches(ledger.inFlight);
    }

    /** getWorkerBalance: the binary64 reading of the worker's account. */
    method GetWorkerBalance(w: Pubkey) returns (balance: real)
      requires Valid()
      ensures balance == Balance(ledger.accounts, w)
    {
      balance := if w in workerBalances then workerBalances[w] else 0.0;
    }

    // ---- Sweeps ----

    /** The timer fires: start a sweep unless one is under way. */
    method SettleAll()
      requires Valid()
      modifies this`settling, this`sweeps, this`ledger
      ensures Valid() && ledger == Step(old(ledger), threshold, StartSweep)
    {
      if settling {
        return;
      }
      var workers := [];
      var i := 0;
      while i < |pendingPayouts|
        invariant 0 <= i <= |pendingPayouts|
        invariant workers == Keys(ledger.pending)[..i]
      {
        workers := workers + [pendingPayouts[i].workerPubkey];
        assert ledger.pending[i].worker == pendingPayouts[i].workerPubkey;
        i := i + 1;
      }
      assert workers == Keys(ledger.pending);
      settling := true;
      sweeps := sweeps + [workers];
      ledger := StartStep(ledger);
    }

    /** The end of a sweep: the flag is cleared. */
    method EndSweep(i: nat)
      requires Valid() && i < |sweeps| && sweeps[i] == []
      modifies this`settling, this`sweeps, this`ledger
      ensures Valid() && ledger == AdvanceStep(old(ledger), i)
    {
      settling := false;
      sweeps := Without(sweeps, i);
      ledger := AdvanceStep(ledger, i);
    }

    /** The sweep settles the next worker on its list. */
    method VisitNext(i: nat)
      requires Valid() && i < |sweeps| && sweeps[i] != []
      modifies this`pendingPayouts, this`flying, this`sweeps, this`ledger
      ensures Valid() && ledger == AdvanceStep(old(ledger), i)
    {
      ghost var l := ledger;
      AdvanceParts(sweeps, l, i);
      var _ := BeginSettle(sweeps[i][0]);
      sweeps := sweeps[i := sweeps[i][1..]];
      Record(AdvanceStep(l, i));
    }

    /** One turn of a sweep's loop after its await, or its end. */
    method SweepTurn(i: nat)
      requires Valid() && Enabled(ledger, AdvanceSweep(i))
      modifies this`pendingPayouts, this`flying, this`settling, this`sweeps, this`ledger
      ensures Valid() && ledger == Step(old(ledger), threshold, AdvanceSweep(i))
    {
      if sweeps[i] == [] {
        EndSweep(i);
      } else {
        VisitNext(i);
      }
    }
  }

  /** Queueing a payout adds it and may settle its worker. */
  lemma QueueParts(l: Ledger, threshold: nat, w: Pubkey, jobId: JobId, amount: real, reached: bool)
    requires var i := IndexOfBatch(l.pending, w);
             reached == (i < |l.pending| && |l.pending[i].jobs| + 1 >= threshold)
    ensures var l', l1 := QueueStep(l, threshold, w, jobId, amount), Enqueue(l, Payout(|l.queued|, w, jobId, amount));
            l' == if reached then SettleWorker(l1, w) else l1
  {
  }

  /** Queueing leaves the flag, the sweeps and the balances alone. */
  lemma QueueLeavesRest(settling: bool, queues: seq<seq<Pubkey>>, balances: map<Pubkey, real>, l: Ledger,
                        threshold: nat, w: Pubkey, jobId: JobId, amount: real)
    requires RestMatches(settling, queues, balances, l)
    ensures RestMatches(settling, queues, balances, QueueStep(l, threshold, w, jobId, amount))
  {
    var l' := QueueStep(l, threshold, w, jobId, amount);
    assert l'.settling == l.settling && l'.sweeps == l.sweeps && l'.accounts == l.accounts;
  }

  /** What a turn of a sweep changes. */
  lemma AdvanceParts(queues: seq<seq<Pubkey>>, l: Ledger, i: nat)
    requires QueuesMatch(queues, l.sweeps) && i < |queues| && queues[i] != []
    ensures var l', l1 := AdvanceStep(l, i), SettleWorker(l, queues[i][0]);
            && l'.pending == l1.pending && l'.inFlight == l1.inFlight
            && l'.settling == l.settling && l'.accounts == l.accounts
            && QueuesMatch(queues[i := queues[i][1..]], l'.sweeps)
  {
  }

  lemma CreditPositions(accounts: seq<Account>, w: Pubkey, sum: Sum, v: Pubkey)
    ensures var accounts', j := Credit(accounts, w, sum), IndexOfAccount(accounts, v);
            IndexOfAccount(accounts', v) == if v != w && j == |accounts| then |accounts'| else j
  {
    var accounts', i := Credit(accounts, w, sum), IndexOfAccount(accounts, w);
    assert forall k :: 0 <= k < |accounts| ==> accounts'[k].worker == accounts[k].worker;
    assert accounts'[i].worker == w;
    var j, j' := IndexOfAccount(accounts, v), IndexOfAccount(accounts', v);
    assert j < |accounts| ==> accounts'[j].worker == v;
    assert j' < |accounts| ==> accounts[j'].worker == v;
  }

  /** Adding a batch total to the stored balance keeps it the reading of the account. */
  lemma CreditMatches(balances: map<Pubkey, real>, accounts: seq<Account>, w: Pubkey, sum: Sum)
    requires BalancesMatch(balances, accounts)
    ensures BalancesMatch(balances[w := Plus(if w in balances then balances[w] else 0.0, Eval(sum))],
                          Credit(accounts, w, sum))
  {
    var accounts' := Credit(accounts, w, sum);
    var balance := Plus(if w in balances then balances[w] else 0.0, Eval(sum));
    var balances' := balances[w := balance];
    CreditPositions(accounts, w, sum, w);
    assert balance == Eval(accounts'[IndexOfAccount(accounts, w)].sum) by {
      ZeroPlusEval(sum);
    }
    forall v
      ensures v in balances' <==> IndexOfAccount(accounts', v) < |accounts'|
      ensures v in balances' ==> balances'[v] == Eval(accounts'[IndexOfAccount(accounts', v)].sum)
    {
      CreditPositions(accounts, w, sum, v);
    }
  }
}
