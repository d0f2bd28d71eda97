/** The coordinator together with one of its token distributors: a completion accepted by
    the hub queues one payout, and everything after that is the distributor's business. */
module EndToEnd {
  import opened Protocol
  import opened Amounts
  import D = Dispatch
  import DI = DispatchInvariant
  import DE = DispatchEffects
  import DR = DispatchRuns
  import DO = DispatchOutcomes
  import S = Settlement
  import SI = SettlementInvariant
  import SR = SettlementRuns

  datatype System = System(hub: D.State, bank: S.Ledger)

  /** A coordinator event, or a distributor event other than queueing, which only the hub does. */
  datatype Event = HubEvent(h: D.Event) | BankEvent(b: S.Event)

  predicate Enabled(s: System, e: Event) {
    match e
    case HubEvent(h) => D.Enabled(s.hub, h)
    case BankEvent(b) => !b.Queue? && S.Enabled(s.bank, b)
  }

  function Step(s: System, threshold: nat, e: Event): System
    requires Enabled(s, e)
  {
    match e
    case HubEvent(h) =>
      System(D.Step(s.hub, h),
             match D.PayoutOf(s.hub, h)
             case None => s.bank
             case Some((worker, jobId)) => S.Step(s.bank, threshold, S.Queue(worker, jobId, JOB_REWARD)))
    case BankEvent(b) => s.(bank := S.Step(s.bank, threshold, b))
  }

  ghost predicate IsRun(systems: seq<System>, threshold: nat, events: seq<Event>) {
    && |systems| == |events| + 1
    && systems[0] == System(D.INIT, S.EMPTY)
    && forall i {:trigger events[i]} :: 0 <= i < |events| ==>
         Enabled(systems[i], events[i]) && systems[i + 1] == Step(systems[i], threshold, events[i])
  }

  predicate IsCompleted(hub: D.State, j: JobId) {
    j in hub.jobs && hub.jobs[j].status.Completed?
  }

  // ---- What the hub contributes ----

  /** An accepted completion of a real job takes its row from assigned to completed and
      pays the worker recorded in the row. */
  lemma PayoutMeansCompletion(hub: D.State, h: D.Event)
    requires DI.Inv(hub) && D.Enabled(hub, h)
    requires D.PayoutOf(hub, h).Some? && !IsDemo(D.PayoutOf(hub, h).value.1)
    ensures var (worker, j) := D.PayoutOf(hub, h).value;
            && j in hub.jobs && hub.jobs[j].status == D.Assigned
            && j in D.Step(hub, h).jobs && h.Complete?
            && D.Step(hub, h).jobs[j] == hub.jobs[j].(status := D.Completed(h.output))
            && hub.jobs[j].worker == Some(worker)
  {
  }

  /** A row becomes completed only in a step that queues a payout for that job. */
  lemma CompletionMeansPayout(hub: D.State, h: D.Event, j: JobId)
    requires DI.Inv(hub) && D.Enabled(hub, h)
    requires IsCompleted(D.Step(hub, h), j) && !IsCompleted(hub, j)
    ensures D.PayoutOf(hub, h).Some? && D.PayoutOf(hub, h).value.1 == j && !IsDemo(j)
  {
    DI.StepKeepsInv(hub, h);
    if j in hub.jobs {
      DR.StepMovesRows(hub, h, j);
      OnlyCompleteCompletes(hub, h, j);
    } else {
      DR.OnlyCommitsInsert(hub, h, j);
      CommitNeverCompletes(hub, h);
    }
  }

  lemma CommitNeverCompletes(hub: D.State, h: D.Event)
    requires D.Enabled(hub, h) && h.Commit?
    ensures !IsCompleted(D.Step(hub, h), h.jobId)
  {
  }

  lemma OnlyCompleteCompletes(hub: D.State, h: D.Event, j: JobId)
    requires DI.Inv(hub) && D.Enabled(hub, h) && j in hub.jobs && hub.jobs[j].status == D.Assigned
    requires IsCompleted(D.Step(hub, h), j)
    ensures h.Complete? && h.jobId == j && D.PayoutOf(hub, h).Some?
  {
    DE.JobEffect(hub, h, j);
  }

  lemma CompletedStays(hub: D.State, h: D.Event, j: JobId)
    requires DI.Inv(hub) && D.Enabled(hub, h) && IsCompleted(hub, j)
    ensures j in D.Step(hub, h).jobs && D.Step(hub, h).jobs[j] == hub.jobs[j]
  {
    DR.StepMovesRows(hub, h, j);
  }

  // ---- What the bank contributes ----

  lemma QueueAppends(l: S.Ledger, threshold: nat, worker: Pubkey, j: JobId, amount: real)
    ensures S.Step(l, threshold, S.Queue(worker, j, amount)).queued
            == l.queued + [Payout(|l.queued|, worker, j, amount)]
  {
  }

  lemma OthersQueueNothing(l: S.Ledger, threshold: nat, b: S.Event)
    requires S.Enabled(l, b) && !b.Queue?
    ensures S.Step(l, threshold, b).queued == l.queued
  {
  }

  // ---- The two together ----

  /** Every queued payout is one reward, and for a real job it goes to the recorded worker
      of a completed row. */
  ghost predicate PayoutOk(hub: D.State, p: Payout) {
    && p.amount == JOB_REWARD
    && (!IsDemo(p.jobId) ==> IsCompleted(hub, p.jobId) && hub.jobs[p.jobId].worker == Some(p.worker))
  }

  ghost predicate QueuedOk(hub: D.State, queued: seq<Payout>) {
    && (forall k :: 0 <= k < |queued| ==> PayoutOk(hub, queued[k]))
    && (forall k, m :: 0 <= k < m < |queued| && !IsDemo(queued[k].jobId) ==> queued[k].jobId != queued[m].jobId)
  }

  ghost predicate Queued(queued: seq<Payout>, j: JobId) {
    exists k :: 0 <= k < |queued| && queued[k].jobId == j
  }

  ghost predicate CompletedIsQueued(hub: D.State, queued: seq<Payout>) {
    forall j :: IsCompleted(hub, j) ==> Queued(queued, j)
  }

  ghost predicate Inv(s: System) {
    && DI.Inv(s.hub)
    && SI.Inv(s.bank)
    && SR.MintedOk(s.bank)
    && QueuedOk(s.hub, s.bank.queued)
    && CompletedIsQueued(s.hub, s.bank.queued)
  }

  lemma OldPayoutsStayOk(hub: D.State, h: D.Event, queued: seq<Payout>)
    requires DI.Inv(hub) && D.Enabled(hub, h) && QueuedOk(hub, queued)
    ensures QueuedOk(D.Step(hub, h), queued)
  {
    forall k | 0 <= k < |queued| ensures PayoutOk(D.Step(hub, h), queued[k]) {
      assert PayoutOk(hub, queued[k]);
      if !IsDemo(queued[k].jobId) { CompletedStays(hub, h, queued[k].jobId); }
    }
  }

  lemma QueuedAfterStep(hub: D.State, h: D.Event, queued: seq<Payout>, queued': seq<Payout>)
    requires DI.Inv(hub) && D.Enabled(hub, h)
    requires QueuedOk(hub, queued) && CompletedIsQueued(hub, queued)
    requires match D.PayoutOf(hub, h)
             case None => queued' == queued
             case Some((worker, j)) => queued' == queued + [Payout(|queued|, worker, j, JOB_REWARD)]
    ensures QueuedOk(D.Step(hub, h), queued') && CompletedIsQueued(D.Step(hub, h), queued')
  {
    var hub' := D.Step(hub, h);
    OldPayoutsStayOk(hub, h, queued);
    if D.PayoutOf(hub, h).Some? && !IsDemo(D.PayoutOf(hub, h).value.1) {
      PayoutMeansCompletion(hub, h);
      NotQueuedBefore(hub, queued, D.PayoutOf(hub, h).value.1);
    }
    assert forall k :: 0 <= k < |queued| ==> queued'[k] == queued[k];
    forall j | IsCompleted(hub', j) ensures Queued(queued', j) {
      if IsCompleted(hub, j) {
        var k :| 0 <= k < |queued| && queued[k].jobId == j;
        assert queued'[k].jobId == j;
      } else {
        CompletionMeansPayout(hub, h, j);
        assert queued'[|queued|].jobId == j;
      }
    }
  }

  /** A job that is still assigned has no payout yet. */
  lemma NotQueuedBefore(hub: D.State, queued: seq<Payout>, j: JobId)
    requires QueuedOk(hub, queued) && !IsDemo(j) && j in hub.jobs && hub.jobs[j].status == D.Assigned
    ensures forall k :: 0 <= k < |queued| ==> queued[k].jobId != j
  {
    forall k | 0 <= k < |queued| ensures queued[k].jobId != j {
      assert PayoutOk(hub, queued[k]);
    }
  }

  lemma BankStepKeeps(l: S.Ledger, threshold: nat, b: S.Event)
    requires SI.Inv(l) && SR.MintedOk(l) && S.Enabled(l, b)
    ensures SI.Inv(S.Step(l, threshold, b)) && SR.MintedOk(S.Step(l, threshold, b))
  {
    SI.StepKeepsInv(l, threshold, b);
    SR.StepKeepsMinted(l, threshold, b);
  }

  lemma HubEventKeepsInv(s: System, threshold: nat, h: D.Event)
    requires Inv(s) && D.Enabled(s.hub, h)
    ensures Inv(Step(s, threshold, HubEvent(h)))
  {
    var s' := Step(s, threshold, HubEvent(h));
    DI.StepKeepsInv(s.hub, h);
    match D.PayoutOf(s.hub, h) {
      case None =>
      case Some((worker, j)) =>
        QueueAppends(s.bank, threshold, worker, j, JOB_REWARD);
        BankStepKeeps(s.bank, threshold, S.Queue(worker, j, JOB_REWARD));
    }
    QueuedAfterStep(s.hub, h, s.bank.queued, s'.bank.queued);
  }

  lemma StepKeepsInv(s: System, threshold: nat, e: Event)
    requires Inv(s) && Enabled(s, e)
    ensures Inv(Step(s, threshold, e))
  {
    match e
    case HubEvent(h) => HubEventKeepsInv(s, threshold, h);
    case BankEvent(b) =>
      BankStepKeeps(s.bank, threshold, b);
      OthersQueueNothing(s.bank, threshold, b);
  }

  lemma StartIsFine(s: System)
    requires s.hub == D.INIT && SI.Fresh(s.bank)
    ensures Inv(s)
  {
    DI.InitIsFine();
    SI.FreshIsFine(s.bank);
  }

  lemma RunStartsFine(systems: seq<System>, threshold: nat, events: seq<Event>)
    requires IsRun(systems, threshold, events)
    ensures Inv(systems[0])
  {
    StartIsFine(systems[0]);
  }

  lemma NextKeepsInv(systems: seq<System>, threshold: nat, events: seq<Event>, n: nat)
    requires IsRun(systems, threshold, events) && 0 < n < |systems| && Inv(systems[n - 1])
    ensures Inv(systems[n])
  {
    StepKeepsInv(systems[n - 1], threshold, events[n - 1]);
  }

  lemma {:induction false} RunKeepsInv(systems: seq<System>, threshold: nat, events: seq<Event>, n: nat)
    requires IsRun(systems, threshold, events) && n < |systems|
    ensures Inv(systems[n])
  {
    if n == 0 {
      RunStartsFine(systems, threshold, events);
    } else {
      RunKeepsInv(systems, threshold, events, n - 1);
      NextKeepsInv(systems, threshold, events, n);
    }
  }

  /** p is the one payout for job j anywhere in the ledger, and it is there once. */
  ghost predicate OnlyPayoutFor(bank: S.Ledger, j: JobId, p: Payout) {
    && p.jobId == j
    && SI.Places(bank)[p] == 1
    && forall q :: q in SI.Places(bank) && q.jobId == j ==> q == p
  }

  /** In every run, a real job has a payout pending, in flight, settled or abandoned if and
      only if its row is completed; then it has exactly one, of one reward, for the worker
      recorded in the row. Duplicate, late and reordered completions change nothing. */
  lemma PaidExactlyOnce(systems: seq<System>, threshold: nat, events: seq<Event>, n: nat, j: JobId)
    requires IsRun(systems, threshold, events) && n < |systems| && !IsDemo(j)
    ensures var s := systems[n];
            && (IsCompleted(s.hub, j) <==> exists p :: p in SI.Places(s.bank) && p.jobId == j)
            && (IsCompleted(s.hub, j) ==>
                  exists p :: OnlyPayoutFor(s.bank, j, p) && p.amount == JOB_REWARD
                              && s.hub.jobs[j].worker == Some(p.worker))
  {
    RunKeepsInv(systems, threshold, events, n);
    var s := systems[n];
    if IsCompleted(s.hub, j) {
      var k :| 0 <= k < |s.bank.queued| && s.bank.queued[k].jobId == j;
      OnlyOnePlace(s, j, k);
      assert s.bank.queued[k] in SI.Places(s.bank);
    }
    forall p | p in SI.Places(s.bank) && p.jobId == j ensures IsCompleted(s.hub, j) {
      var k := PlaceInQueue(s, p);
      assert PayoutOk(s.hub, s.bank.queued[k]);
    }
  }

  lemma PlaceInQueue(s: System, p: Payout) returns (k: nat)
    requires SI.Conserved(s.bank) && p in SI.Places(s.bank)
    ensures k < |s.bank.queued| && s.bank.queued[k] == p
  {
    assert p in multiset(s.bank.queued);
    var i :| 0 <= i < |s.bank.queued| && s.bank.queued[i] == p;
    k := i;
  }

  lemma OnlyOnePlace(s: System, j: JobId, k: nat)
    requires Inv(s) && !IsDemo(j) && k < |s.bank.queued| && s.bank.queued[k].jobId == j
    ensures OnlyPayoutFor(s.bank, j, s.bank.queued[k])
    ensures s.bank.queued[k].amount == JOB_REWARD
    ensures IsCompleted(s.hub, j) && s.hub.jobs[j].worker == Some(s.bank.queued[k].worker)
  {
    var p := s.bank.queued[k];
    assert PayoutOk(s.hub, p);
    SR.NumberedOnce(s.bank.queued, k);
    forall q | q in SI.Places(s.bank) && q.jobId == j ensures q == p {
      var m := PlaceInQueue(s, q);
    }
  }

  /** In every run in which no attempt exceeds 67000 jobs, the raw units moved on chain are
      exactly one million per settled job. */
  lemma SettledJobsArePaidToTheUnit(systems: seq<System>, threshold: nat, events: seq<Event>, n: nat)
    requires IsRun(systems, threshold, events) && n < |systems|
    requires forall a :: 0 <= a < |systems[n].bank.attempts| ==> |systems[n].bank.attempts[a]| <= 67000
    ensures systems[n].bank.minted == 1000000 * |systems[n].bank.settled|
  {
    RunKeepsInv(systems, threshold, events, n);
    var bank := systems[n].bank;
    assert SR.RewardsOnly(bank) by {
      forall k | 0 <= k < |bank.queued| ensures bank.queued[k].amount == JOB_REWARD {
        assert PayoutOk(systems[n].hub, bank.queued[k]);
      }
    }
  }

  lemma CompletionCompletes(hub: D.State, j: JobId, output: string, receiptFor: Option<JobId>)
    requires DI.Inv(hub) && j in hub.jobs && hub.jobs[j].status == D.Assigned
    requires receiptFor.None? || receiptFor == Some(j)
    ensures !IsDemo(j)
    ensures var hub' := D.Step(hub, D.Complete(j, output, receiptFor));
            j in hub'.jobs && hub'.jobs[j] == hub.jobs[j].(status := D.Completed(output))
  {
    DO.CompletionOutcome(hub, D.HolderOf(hub.workers, j), j, output, receiptFor);
  }

  lemma {:induction false} CompletedForGood(
    systems: seq<System>, threshold: nat, events: seq<Event>, m: nat, n: nat, j: JobId)
    requires IsRun(systems, threshold, events) && m <= n < |systems| && IsCompleted(systems[m].hub, j)
    ensures j in systems[n].hub.jobs && systems[n].hub.jobs[j] == systems[m].hub.jobs[j]
    decreases n
  {
    if m < n {
      CompletedForGood(systems, threshold, events, m, n - 1, j);
      NextStaysCompleted(systems, threshold, events, n, j);
    }
  }

  lemma NextStaysCompleted(systems: seq<System>, threshold: nat, events: seq<Event>, n: nat, j: JobId)
    requires IsRun(systems, threshold, events) && 0 < n < |systems| && IsCompleted(systems[n - 1].hub, j)
    ensures j in systems[n].hub.jobs && systems[n].hub.jobs[j] == systems[n - 1].hub.jobs[j]
  {
    RunKeepsInv(systems, threshold, events, n - 1);
    StepStaysCompleted(systems[n - 1], threshold, events[n - 1], j);
  }

  lemma StepStaysCompleted(s: System, threshold: nat, e: Event, j: JobId)
    requires DI.Inv(s.hub) && Enabled(s, e) && IsCompleted(s.hub, j)
    ensures j in Step(s, threshold, e).hub.jobs && Step(s, threshold, e).hub.jobs[j] == s.hub.jobs[j]
  {
    match e
    case HubEvent(h) => CompletedStays(s.hub, h, j);
    case BankEvent(_) =>
  }

  lemma CompletionLasts(systems: seq<System>, threshold: nat, events: seq<Event>, m: nat, n: nat,
                        j: JobId, output: string, receiptFor: Option<JobId>)
    requires IsRun(systems, threshold, events) && m < n < |systems|
    requires events[m] == HubEvent(D.Complete(j, output, receiptFor)) && (receiptFor.None? || receiptFor == Some(j))
    requires j in systems[m].hub.jobs && systems[m].hub.jobs[j].status == D.Assigned
    ensures !IsDemo(j) && IsCompleted(systems[n].hub, j)
    ensures systems[n].hub.jobs[j].worker == systems[m].hub.jobs[j].worker
  {
    NextCompletes(systems, threshold, events, m, j, output, receiptFor);
    CompletedForGood(systems, threshold, events, m + 1, n, j);
  }

  lemma NextCompletes(systems: seq<System>, threshold: nat, events: seq<Event>, m: nat,
                      j: JobId, output: string, receiptFor: Option<JobId>)
    requires IsRun(systems, threshold, events) && m < |events|
    requires events[m] == HubEvent(D.Complete(j, output, receiptFor)) && (receiptFor.None? || receiptFor == Some(j))
    requires j in systems[m].hub.jobs && systems[m].hub.jobs[j].status == D.Assigned
    ensures !IsDemo(j) && IsCompleted(systems[m + 1].hub, j)
    ensures systems[m + 1].hub.jobs[j].worker == systems[m].hub.jobs[j].worker
  {
    RunKeepsInv(systems, threshold, events, m);
    CompletionCompletes(systems[m].hub, j, output, receiptFor);
  }

  /** An assigned job that is completed with its own receipt or none has, in every later state,
      exactly one payout, of one reward, for the worker it was assigned to. */
  lemma CompletedWorkIsPaid(systems: seq<System>, threshold: nat, events: seq<Event>, m: nat, n: nat,
                            j: JobId, output: string, receiptFor: Option<JobId>) returns (p: Payout)
    requires IsRun(systems, threshold, events) && m < n < |systems|
    requires events[m] == HubEvent(D.Complete(j, output, receiptFor)) && (receiptFor.None? || receiptFor == Some(j))
    requires j in systems[m].hub.jobs && systems[m].hub.jobs[j].status == D.Assigned
    ensures OnlyPayoutFor(systems[n].bank, j, p) && p.amount == JOB_REWARD
    ensures systems[m].hub.jobs[j].worker == Some(p.worker)
  {
    CompletionLasts(systems, threshold, events, m, n, j, output, receiptFor);
    PaidExactlyOnce(systems, threshold, events, n, j);
    p :| OnlyPayoutFor(systems[n].bank, j, p) && p.amount == JOB_REWARD
         && systems[n].hub.jobs[j].worker == Some(p.worker);
  }
}
