/** The Monad coordinator sends the transactions of the wrapped distributor through the
    transaction queue, which it shares with reputation feedback. The continuation of an
    attempt reacts to the promise of its own transaction, before the next function in the
    queue is called, so the end of a transaction and its continuation are one step here. */
module MonadSettlement {
  import opened Protocol
  import opened Amounts
  import opened Settlement
  import SI = SettlementInvariant
  import SO = SettlementOrder
  import Q = TxQueue

  /** owners says for every call of the queue which attempt it belongs to, if any. */
  datatype System = System(bank: Ledger, queue: Q.State, owners: seq<Option<nat>>)

  datatype Action =
    | Bank(b: Event)
    | Feedback
    | React(p: nat)
    | Finish(p: nat, ok: bool)

  function Numbers(fs: seq<Flight>): (ids: seq<nat>)
    ensures |ids| == |fs|
    ensures forall k :: 0 <= k < |fs| ==> ids[k] == fs[k].id
  {
    seq(|fs|, k requires 0 <= k < |fs| => fs[k].id)
  }

  /** The position of an attempt among those in flight, or their number. */
  function IndexOfFlight(fs: seq<Flight>, id: nat): (k: nat)
    ensures k <= |fs|
    ensures k < |fs| ==> fs[k].id == id
    ensures forall j :: 0 <= j < k ==> fs[j].id != id
  {
    IndexOf(Numbers(fs), id)
  }

  /** Only the queue tells an attempt how it ended. */
  predicate Enabled(s: System, a: Action) {
    match a
    case Bank(b) => Settlement.Enabled(s.bank, b) && !b.Succeed? && !b.Fail?
    case Feedback => true
    case React(p) => Q.Enabled(s.queue, Q.React(p))
    case Finish(p, ok) => Q.Enabled(s.queue, Q.Finish(p, ok))
  }

  /** The attempt that the call behind promise p belongs to. */
  function OwnerOf(s: System, p: nat): Option<nat>
    requires Q.Enabled(s.queue, Q.Finish(p, true))
  {
    var c := s.queue.promises[p].onFulfilled.k;
    if c < |s.owners| then s.owners[c] else None
  }

  function Outcome(k: nat, ok: bool): Event {
    if ok then Succeed(k) else Fail(k)
  }

  /** The continuation of the attempt whose transaction has ended. */
  function Continue(l: Ledger, threshold: nat, owner: Option<nat>, ok: bool): Ledger {
    if owner.None? then l
    else
      var k := IndexOfFlight(l.inFlight, owner.value);
      if k < |l.inFlight| then Settlement.Step(l, threshold, Outcome(k, ok)) else l
  }

  function Step(s: System, threshold: nat, a: Action): System
    requires Enabled(s, a)
  {
    match a
    case Bank(b) =>
      var bank := Settlement.Step(s.bank, threshold, b);
      if |bank.attempts| > |s.bank.attempts|
      then System(bank, Q.EnqueueStep(s.queue), s.owners + [Some(|s.bank.attempts|)])
      else s.(bank := bank)
    case Feedback => System(s.bank, Q.EnqueueStep(s.queue), s.owners + [None])
    case React(p) => s.(queue := Q.ReactStep(s.queue, p))
    case Finish(p, ok) =>
      System(Continue(s.bank, threshold, OwnerOf(s, p), ok), Q.FinishStep(s.queue, p, ok), s.owners)
  }

  ghost predicate IsRun(systems: seq<System>, threshold: nat, actions: seq<Action>) {
    && |systems| == |actions| + 1
    && systems[0] == System(EMPTY, Q.INIT, [])
    && forall i {:trigger actions[i]} :: 0 <= i < |actions| ==>
         Enabled(systems[i], actions[i]) && systems[i + 1] == Step(systems[i], threshold, actions[i])
  }

  // ---- The queue and the attempts in flight ----

  /** The attempts behind the calls from a given one on, in call order. */
  function Waiting(owners: seq<Option<nat>>, from: nat): seq<nat>
    decreases |owners| - from
  {
    if from >= |owners| then []
    else (if owners[from].Some? then [owners[from].value] else []) + Waiting(owners, from + 1)
  }

  lemma {:induction false} WaitingAppend(owners: seq<Option<nat>>, o: Option<nat>, from: nat)
    requires from <= |owners|
    ensures Waiting(owners + [o], from) == Waiting(owners, from) + if o.Some? then [o.value] else []
    decreases |owners| - from
  {
    if from < |owners| {
      WaitingAppend(owners, o, from + 1);
    } else {
      assert Waiting(owners + [o], from + 1) == [];
    }
  }

  /** The attempts in flight are those whose calls have not ended, in the order of the calls. */
  ghost predicate Matched(s: System) {
    |s.owners| == s.queue.calls && Numbers(s.bank.inFlight) == Waiting(s.owners, |s.queue.ends|)
  }

  /** Outside continuations, at most one attempt begins, and none ends. */
  lemma BankMoves(l: Ledger, threshold: nat, b: Event)
    requires Settlement.Enabled(l, b) && !b.Succeed? && !b.Fail?
    ensures var l' := Settlement.Step(l, threshold, b);
            if |l'.attempts| > |l.attempts|
            then |l'.inFlight| == |l.inFlight| + 1 && l'.inFlight[..|l.inFlight|] == l.inFlight
                 && l'.inFlight[|l.inFlight|].id == |l.attempts|
            else l'.inFlight == l.inFlight
  {
  }

  lemma NumbersAppend(fs: seq<Flight>, fs': seq<Flight>, id: nat)
    requires |fs'| == |fs| + 1 && fs'[..|fs|] == fs && fs'[|fs|].id == id
    ensures Numbers(fs') == Numbers(fs) + [id]
  {
    forall k | 0 <= k < |fs| ensures Numbers(fs')[k] == fs[k].id {
      assert fs'[k] == fs'[..|fs|][k];
    }
  }

  lemma QueueHistory(q: Q.State)
    requires Q.Inv(q)
    ensures |q.ends| <= q.calls
  {
  }

  // ---- Each part on its own ----

  lemma StepKeepsBank(s: System, threshold: nat, a: Action)
    requires SI.Inv(s.bank) && Enabled(s, a)
    ensures SI.Inv(Step(s, threshold, a).bank)
  {
    match a
    case Bank(b) => SI.StepKeepsInv(s.bank, threshold, b);
    case Feedback =>
    case React(_) =>
    case Finish(p, ok) => ContinueKeepsBank(s.bank, threshold, OwnerOf(s, p), ok);
  }

  lemma ContinueKeepsBank(l: Ledger, threshold: nat, owner: Option<nat>, ok: bool)
    requires SI.Inv(l)
    ensures SI.Inv(Continue(l, threshold, owner, ok))
  {
    var l' := Continue(l, threshold, owner, ok);
    if l' != l {
      var e := Outcome(IndexOfFlight(l.inFlight, owner.value), ok);
      assert Settlement.Enabled(l, e) && l' == Settlement.Step(l, threshold, e);
      OutcomeKeepsBank(l, l', threshold, e);
    }
  }

  lemma OutcomeKeepsBank(l: Ledger, l': Ledger, threshold: nat, e: Event)
    requires SI.Inv(l) && Settlement.Enabled(l, e) && l' == Settlement.Step(l, threshold, e)
    ensures SI.Inv(l')
  {
    SI.StepKeepsInv(l, threshold, e);
  }

  lemma StepKeepsQueue(s: System, threshold: nat, a: Action)
    requires Q.Inv(s.queue) && Enabled(s, a)
    ensures Q.Inv(Step(s, threshold, a).queue)
  {
    match a
    case Bank(b) => Q.EnqueueKeeps(s.queue);
    case Feedback => Q.EnqueueKeeps(s.queue);
    case React(p) => Q.ReactKeeps(s.queue, p);
    case Finish(p, ok) => Q.FinishKeeps(s.queue, p, ok);
  }

  lemma NextKeepsBank(systems: seq<System>, threshold: nat, actions: seq<Action>, n: nat)
    requires IsRun(systems, threshold, actions) && 0 < n < |systems| && SI.Inv(systems[n - 1].bank)
    ensures SI.Inv(systems[n].bank)
  {
    StepKeepsBank(systems[n - 1], threshold, actions[n - 1]);
  }

  lemma {:induction false} RunKeepsBank(systems: seq<System>, threshold: nat, actions: seq<Action>, n: nat)
    requires IsRun(systems, threshold, actions) && n < |systems|
    ensures SI.Inv(systems[n].bank)
  {
    if n == 0 {
      SI.FreshIsFine(systems[n].bank);
    } else {
      RunKeepsBank(systems, threshold, actions, n - 1);
      NextKeepsBank(systems, threshold, actions, n);
    }
  }

  lemma NextKeepsQueue(systems: seq<System>, threshold: nat, actions: seq<Action>, n: nat)
    requires IsRun(systems, threshold, actions) && 0 < n < |systems| && Q.Inv(systems[n - 1].queue)
    ensures Q.Inv(systems[n].queue)
  {
    StepKeepsQueue(systems[n - 1], threshold, actions[n - 1]);
  }

  lemma {:induction false} RunKeepsQueue(systems: seq<System>, threshold: nat, actions: seq<Action>, n: nat)
    requires IsRun(systems, threshold, actions) && n < |systems|
    ensures Q.Inv(systems[n].queue)
  {
    if n > 0 {
      RunKeepsQueue(systems, threshold, actions, n - 1);
      NextKeepsQueue(systems, threshold, actions, n);
    }
  }

  // ---- Both together ----

  lemma BankKeeps(s: System, threshold: nat, b: Event)
    requires Q.Inv(s.queue) && Matched(s) && Enabled(s, Bank(b))
    ensures Matched(Step(s, threshold, Bank(b)))
  {
    BankMoves(s.bank, threshold, b);
    var bank := Settlement.Step(s.bank, threshold, b);
    if |bank.attempts| > |s.bank.attempts| {
      QueueHistory(s.queue);
      NumbersAppend(s.bank.inFlight, bank.inFlight, |s.bank.attempts|);
      WaitingAppend(s.owners, Some(|s.bank.attempts|), |s.queue.ends|);
    }
  }

  lemma FeedbackKeeps(s: System, threshold: nat)
    requires Q.Inv(s.queue) && Matched(s)
    ensures Matched(Step(s, threshold, Feedback))
  {
    QueueHistory(s.queue);
    WaitingAppend(s.owners, None, |s.queue.ends|);
  }

  lemma ReactEndsNothing(q: Q.State, p: nat)
    requires Q.Enabled(q, Q.React(p))
    ensures Q.ReactStep(q, p).ends == q.ends && Q.ReactStep(q, p).calls == q.calls
  {
  }

  /** The function that ends is the one called first among those that have not ended. */
  lemma FirstCallEnds(q: Q.State, p: nat, ok: bool)
    requires Q.Inv(q) && Q.Enabled(q, Q.Finish(p, ok))
    ensures q.promises[p].onFulfilled.k == |q.ends| < q.calls
    ensures |Q.FinishStep(q, p, ok).ends| == |q.ends| + 1 && Q.FinishStep(q, p, ok).calls == q.calls
  {
    assert 0 < p;
    Q.SourceIsPrevious(q, p);
    assert p % 2 == 1;
    Q.EndIsNext(q, p / 2);
  }

  /** The attempt that a transaction belongs to is the oldest in flight. */
  lemma OwnerIsOldest(s: System, p: nat, ok: bool)
    requires Q.Inv(s.queue) && Matched(s) && Enabled(s, Finish(p, ok))
    ensures OwnerOf(s, p).None? ==> Continue(s.bank, 0, OwnerOf(s, p), ok) == s.bank
    ensures OwnerOf(s, p).Some? ==>
              s.bank.inFlight != [] && s.bank.inFlight[0].id == OwnerOf(s, p).value
              && IndexOfFlight(s.bank.inFlight, OwnerOf(s, p).value) == 0
    ensures Waiting(s.owners, |s.queue.ends| + 1)
            == if OwnerOf(s, p).Some? then Numbers(s.bank.inFlight)[1..] else Numbers(s.bank.inFlight)
  {
    FirstCallEnds(s.queue, p, ok);
    var w := Waiting(s.owners, |s.queue.ends|);
    assert OwnerOf(s, p) == s.owners[|s.queue.ends|];
    if OwnerOf(s, p).Some? {
      assert w[0] == OwnerOf(s, p).value && w[1..] == Waiting(s.owners, |s.queue.ends| + 1);
      assert Numbers(s.bank.inFlight)[0] == s.bank.inFlight[0].id;
    }
  }

  lemma LandingMoves(l: Ledger, threshold: nat, ok: bool)
    requires l.inFlight != []
    ensures Settlement.Step(l, threshold, Outcome(0, ok)).inFlight == l.inFlight[1..]
  {
    SI.FailParts(l, 0);
    assert Without(l.inFlight, 0) == l.inFlight[1..];
  }

  lemma NumbersTail(fs: seq<Flight>)
    requires fs != []
    ensures Numbers(fs[1..]) == Numbers(fs)[1..]
  {
  }

  lemma FinishKeeps(s: System, threshold: nat, p: nat, ok: bool)
    requires Q.Inv(s.queue) && Matched(s) && Enabled(s, Finish(p, ok))
    ensures Matched(Step(s, threshold, Finish(p, ok)))
  {
    OwnerIsOldest(s, p, ok);
    FirstCallEnds(s.queue, p, ok);
    if OwnerOf(s, p).Some? {
      LandingMoves(s.bank, threshold, ok);
      NumbersTail(s.bank.inFlight);
    }
  }

  lemma StepKeepsMatched(s: System, threshold: nat, a: Action)
    requires Q.Inv(s.queue) && Matched(s) && Enabled(s, a)
    ensures Matched(Step(s, threshold, a))
  {
    match a
    case Bank(b) => BankKeeps(s, threshold, b);
    case Feedback => FeedbackKeeps(s, threshold);
    case React(p) => ReactEndsNothing(s.queue, p);
    case Finish(p, ok) => FinishKeeps(s, threshold, p, ok);
  }

  lemma NextKeepsMatched(systems: seq<System>, threshold: nat, actions: seq<Action>, n: nat)
    requires IsRun(systems, threshold, actions) && 0 < n < |systems| && Matched(systems[n - 1])
    ensures Matched(systems[n])
  {
    RunKeepsQueue(systems, threshold, actions, n - 1);
    StepKeepsMatched(systems[n - 1], threshold, actions[n - 1]);
  }

  /** In every run the attempts in flight are the settlement calls that have not ended, in
      call order. */
  lemma {:induction false} RunKeepsMatched(systems: seq<System>, threshold: nat, actions: seq<Action>, n: nat)
    requires IsRun(systems, threshold, actions) && n < |systems|
    ensures Matched(systems[n])
  {
    if n > 0 {
      RunKeepsMatched(systems, threshold, actions, n - 1);
      NextKeepsMatched(systems, threshold, actions, n);
    }
  }

  // ---- First begun, first finished ----

  /** What a transaction's end does to the ledger: the oldest attempt succeeds or fails, or
      nothing happens because the transaction was not a settlement. */
  lemma OldestFinishesFirst(systems: seq<System>, threshold: nat, actions: seq<Action>, n: nat)
    requires IsRun(systems, threshold, actions) && n < |actions| && actions[n].Finish?
    ensures var s, a := systems[n], actions[n];
            if OwnerOf(s, a.p).Some?
            then && s.bank.inFlight != [] && s.bank.inFlight[0].id == OwnerOf(s, a.p).value
                 && systems[n + 1].bank == Settlement.Step(s.bank, threshold, if a.ok then Succeed(0) else Fail(0))
            else systems[n + 1].bank == s.bank
  {
    RunKeepsQueue(systems, threshold, actions, n);
    RunKeepsMatched(systems, threshold, actions, n);
    OwnerIsOldest(systems[n], actions[n].p, actions[n].ok);
  }

  /** What the action does to the ledger, as an event of the distributor. */
  function BankEvent(s: System, a: Action): Option<Event>
    requires Enabled(s, a)
  {
    match a
    case Bank(b) => Some(b)
    case Feedback => None
    case React(_) => None
    case Finish(p, ok) => if OwnerOf(s, p).Some? then Some(Outcome(0, ok)) else None
  }

  lemma BankTakesEvent(s: System, threshold: nat, a: Action)
    requires Q.Inv(s.queue) && Matched(s) && Enabled(s, a)
    ensures match BankEvent(s, a)
            case None => Step(s, threshold, a).bank == s.bank
            case Some(e) =>
              Settlement.Enabled(s.bank, e) && Step(s, threshold, a).bank == Settlement.Step(s.bank, threshold, e)
  {
    if a.Finish? { OwnerIsOldest(s, a.p, a.ok); }
  }

  /** A failed attempt is queued again while another attempt of its worker is in the queue. */
  ghost predicate RetriedPastAnother(s: System, a: Action) {
    && a.Finish? && Enabled(s, a) && !a.ok && OwnerOf(s, a.p).Some? && s.bank.inFlight != []
    && FailedOnce(s.bank.inFlight[0].batch).retries < MAX_RETRIES
    && exists j :: 0 < j < |s.bank.inFlight| && s.bank.inFlight[j].batch.worker == s.bank.inFlight[0].batch.worker
  }

  lemma NextInLine(systems: seq<System>, threshold: nat, actions: seq<Action>, i: nat)
    requires IsRun(systems, threshold, actions) && i < |actions| && SO.InLine(systems[i].bank)
    ensures SO.InLine(systems[i + 1].bank) <==> !RetriedPastAnother(systems[i], actions[i])
  {
    var s, a := systems[i], actions[i];
    RunKeepsBank(systems, threshold, actions, i);
    RunKeepsQueue(systems, threshold, actions, i);
    RunKeepsMatched(systems, threshold, actions, i);
    BankTakesEvent(s, threshold, a);
    if BankEvent(s, a).Some? {
      SO.StepKeepsOrder(s.bank, threshold, BankEvent(s, a).value);
      OvertakenMeansRetried(s, a);
    } else {
      NoEventNoRetry(s, a);
    }
  }

  lemma OvertakenMeansRetried(s: System, a: Action)
    requires Q.Inv(s.queue) && Matched(s) && Enabled(s, a) && BankEvent(s, a).Some?
    ensures SO.Overtaken(s.bank, BankEvent(s, a).value) <==> RetriedPastAnother(s, a)
  {
    if a.Finish? { OwnerIsOldest(s, a.p, a.ok); }
  }

  lemma NoEventNoRetry(s: System, a: Action)
    requires Enabled(s, a) && BankEvent(s, a).None?
    ensures !RetriedPastAnother(s, a)
  {
  }

  lemma {:induction false} NobodyRetriedPast(systems: seq<System>, threshold: nat, actions: seq<Action>, n: nat)
    requires IsRun(systems, threshold, actions) && n < |systems|
    requires forall i :: 0 <= i < n ==> !RetriedPastAnother(systems[i], actions[i])
    ensures SO.InLine(systems[n].bank)
  {
    if n == 0 {
      SO.FreshInLine(systems[n].bank);
    } else {
      NobodyRetriedPast(systems, threshold, actions, n - 1);
      NextInLine(systems, threshold, actions, n - 1);
    }
  }

  /** With the queue, every worker's line stays in queueing order if and only if no failed
      attempt is ever queued again while another attempt of its worker waits in the queue. */
  lemma LinesKeptUnlessRetriedPast(systems: seq<System>, threshold: nat, actions: seq<Action>, n: nat)
    requires IsRun(systems, threshold, actions) && n < |systems|
    ensures (forall m :: 0 <= m <= n ==> SO.InLine(systems[m].bank))
            <==> (forall i :: 0 <= i < n ==> !RetriedPastAnother(systems[i], actions[i]))
  {
    if forall i :: 0 <= i < n ==> !RetriedPastAnother(systems[i], actions[i]) {
      forall m | 0 <= m <= n ensures SO.InLine(systems[m].bank) {
        NobodyRetriedPast(systems, threshold, actions, m);
      }
    } else {
      var i :| 0 <= i < n && RetriedPastAnother(systems[i], actions[i]);
      if SO.InLine(systems[i].bank) { NextInLine(systems, threshold, actions, i); }
    }
  }
}
