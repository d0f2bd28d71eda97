/** The transaction queue: every call chains its function behind a module-level promise and
    replaces that promise by one that settles when the function is done. Promises follow
    section 27.2 of ECMA-262: a reaction runs once, some time after its source has settled,
    a missing rejection handler passes the rejection on, and a promise returned by a handler
    settles the derived promise later. The order in which ready reactions run is left open. */
module TxQueue {

  /** Running: the handler has been called and its own promise has not settled yet. */
  datatype Status = Pending | Running | Fulfilled | Rejected

  datatype Handler = Call(k: nat) | Noop | PassOn

  /** A promise made by then() on the promise at index source. */
  datatype Promise = Promise(status: Status, source: nat, onFulfilled: Handler, onRejected: Handler)

  /** starts and ends are history: the calls whose function has started, and the calls whose
      function has ended with whether it succeeded, in the order in which that happened. */
  datatype State = State(promises: seq<Promise>, tail: nat, calls: nat, starts: seq<nat>, ends: seq<(nat, bool)>)

  datatype Event = Enqueue | React(p: nat) | Finish(p: nat, ok: bool)

  predicate Settled(st: Status) {
    st == Fulfilled || st == Rejected
  }

  /** monadTxQueue starts as an already resolved promise. */
  const INIT := State([Promise(Fulfilled, 0, Noop, Noop)], 0, 0, [], [])

  predicate Enabled(s: State, e: Event) {
    match e
    case Enqueue => true
    case React(p) =>
      p < |s.promises| && s.promises[p].status == Pending
      && s.promises[p].source < |s.promises| && Settled(s.promises[s.promises[p].source].status)
    case Finish(p, _) =>
      p < |s.promises| && s.promises[p].status == Running && s.promises[p].onFulfilled.Call?
  }

  function EnqueueStep(s: State): State {
    var result := Promise(Pending, s.tail, Call(s.calls), PassOn);
    var next := Promise(Pending, |s.promises|, Noop, Noop);
    s.(promises := s.promises + [result, next], tail := |s.promises| + 1, calls := s.calls + 1)
  }

  function HandlerFor(p: Promise, source: Status): Handler {
    if source == Rejected then p.onRejected else p.onFulfilled
  }

  function ReactStep(s: State, p: nat): State
    requires Enabled(s, React(p))
  {
    var pr := s.promises[p];
    var source := s.promises[pr.source].status;
    match HandlerFor(pr, source)
    case Call(k) => s.(promises := s.promises[p := pr.(status := Running)], starts := s.starts + [k])
    case Noop => s.(promises := s.promises[p := pr.(status := Fulfilled)])
    case PassOn => s.(promises := s.promises[p := pr.(status := source)])
  }

  function FinishStep(s: State, p: nat, ok: bool): State
    requires Enabled(s, Finish(p, ok))
  {
    var pr := s.promises[p];
    s.(promises := s.promises[p := pr.(status := if ok then Fulfilled else Rejected)],
       ends := s.ends + [(pr.onFulfilled.k, ok)])
  }

  function Step(s: State, e: Event): State
    requires Enabled(s, e)
  {
    match e
    case Enqueue => EnqueueStep(s)
    case React(p) => ReactStep(s, p)
    case Finish(p, ok) => FinishStep(s, p, ok)
  }

  ghost predicate IsRun(states: seq<State>, events: seq<Event>) {
    && |states| == |events| + 1
    && states[0] == INIT
    && forall i {:trigger events[i]} :: 0 <= i < |events| ==>
         Enabled(states[i], events[i]) && states[i + 1] == Step(states[i], events[i])
  }

  /** How a promise made by then() reacts: a fulfilled source calls the function and a failed
      one does not; without a second handler the failure is passed on, with an empty one it
      ends there. */
  lemma ReactionOutcome(s: State, p: nat, k: nat)
    requires Enabled(s, React(p))
    ensures var pr, s' := s.promises[p], Step(s, React(p));
            var source := s.promises[pr.source].status;
            && (source == Fulfilled && pr.onFulfilled == Call(k) ==>
                  s'.promises == s.promises[p := pr.(status := Running)] && s'.starts == s.starts + [k])
            && (source == Rejected && pr.onRejected == PassOn ==>
                  s' == s.(promises := s.promises[p := pr.(status := Rejected)]))
            && (source == Rejected && pr.onRejected == Noop ==>
                  s' == s.(promises := s.promises[p := pr.(status := Fulfilled)]))
            && (source == Fulfilled && pr.onFulfilled == Noop ==>
                  s' == s.(promises := s.promises[p := pr.(status := Fulfilled)]))
  {
  }

  // ---- The invariant ----

  const NO_PROMISE := Promise(Pending, 0, Noop, Noop)

  /** The promise returned by call k. */
  function ResultOf(s: State, k: int): Promise {
    if 0 <= 2 * k + 1 < |s.promises| then s.promises[2 * k + 1] else NO_PROMISE
  }

  /** The promise that call k left for the next call to wait for. */
  function NextOf(s: State, k: int): Promise {
    if 0 <= 2 * k + 2 < |s.promises| then s.promises[2 * k + 2] else NO_PROMISE
  }

  /** The promises form one chain: call k made promises 2k+1, its result, and 2k+2. */
  ghost predicate Chain(s: State) {
    && |s.promises| == 2 * s.calls + 1
    && s.tail == 2 * s.calls
    && s.promises[0].status == Fulfilled
    && (forall k :: 0 <= k < s.calls ==> ResultOf(s, k) == Promise(ResultOf(s, k).status, 2 * k, Call(k), PassOn))
    && (forall k :: 0 <= k < s.calls ==> NextOf(s, k) == Promise(NextOf(s, k).status, 2 * k + 1, Noop, Noop))
  }

  /** Nothing has happened to a promise before everything in front of it has settled. */
  ghost predicate InOrder(s: State) {
    forall i, j :: 0 <= i < j < |s.promises| && s.promises[j].status != Pending ==> Settled(s.promises[i].status)
  }

  /** The promises that later calls wait for never reject and never run anything. */
  ghost predicate TailsFulfil(s: State)
    requires Chain(s)
  {
    forall k :: 0 <= k < s.calls ==> NextOf(s, k).status == Pending || NextOf(s, k).status == Fulfilled
  }

  /** The history says what the result promises show. */
  ghost predicate HistoryOk(s: State)
    requires Chain(s)
  {
    && |s.ends| <= |s.starts| <= s.calls
    && (forall k :: 0 <= k < |s.starts| ==> s.starts[k] == k)
    && (forall k :: 0 <= k < |s.ends| ==> s.ends[k].0 == k)
    && (forall k :: 0 <= k < s.calls ==> (ResultOf(s, k).status != Pending <==> k < |s.starts|))
    && (forall k :: 0 <= k < s.calls ==> (Settled(ResultOf(s, k).status) <==> k < |s.ends|))
    && (forall k :: 0 <= k < |s.ends| ==> (ResultOf(s, k).status == Fulfilled <==> s.ends[k].1))
  }

  ghost predicate Inv(s: State) {
    Chain(s) && InOrder(s) && TailsFulfil(s) && HistoryOk(s)
  }

  lemma EnqueueLeavesOthers(s: State)
    requires Chain(s)
    ensures Chain(EnqueueStep(s))
    ensures forall k :: 0 <= k < s.calls ==>
              ResultOf(EnqueueStep(s), k) == ResultOf(s, k) && NextOf(EnqueueStep(s), k) == NextOf(s, k)
    ensures ResultOf(EnqueueStep(s), s.calls).status == Pending && NextOf(EnqueueStep(s), s.calls).status == Pending
  {
    var s' := EnqueueStep(s);
    forall k | 0 <= k < s.calls ensures ResultOf(s', k) == ResultOf(s, k) && NextOf(s', k) == NextOf(s, k) {
    }
    assert ResultOf(s', s.calls) == Promise(Pending, 2 * s.calls, Call(s.calls), PassOn);
    assert NextOf(s', s.calls) == Promise(Pending, 2 * s.calls + 1, Noop, Noop);
  }

  lemma EnqueueKeeps(s: State)
    requires Inv(s)
    ensures Inv(EnqueueStep(s))
  {
    EnqueueLeavesOthers(s);
    assert InOrder(EnqueueStep(s)) by {
      assert forall i :: 0 <= i < |s.promises| ==> EnqueueStep(s).promises[i] == s.promises[i];
    }
  }

  /** In the chain, the promise in front of p is its source. */
  lemma SourceIsPrevious(s: State, p: nat)
    requires Chain(s) && 0 < p < |s.promises|
    ensures s.promises[p].source == p - 1
    ensures p % 2 == 1 ==> p == 2 * (p / 2) + 1 && p / 2 < s.calls && s.promises[p] == ResultOf(s, p / 2)
    ensures p % 2 == 0 ==> p == 2 * (p / 2 - 1) + 2 && p / 2 - 1 < s.calls && s.promises[p] == NextOf(s, p / 2 - 1)
  {
    if p % 2 == 1 {
      assert s.promises[p] == ResultOf(s, p / 2);
    } else {
      assert s.promises[p] == NextOf(s, p / 2 - 1);
    }
  }

  /** The chain with the status of promise p changed. */
  function SetStatus(s: State, p: nat, st: Status): State
    requires p < |s.promises|
  {
    s.(promises := s.promises[p := s.promises[p].(status := st)])
  }

  /** Changing the status of one promise, once everything before it has settled. */
  lemma StatusChangeKeepsOrder(s: State, p: nat, st: Status)
    requires Chain(s) && InOrder(s) && 0 < p < |s.promises| && !Settled(s.promises[p].status)
    requires forall i :: 0 <= i < p ==> Settled(s.promises[i].status)
    ensures Chain(SetStatus(s, p, st)) && InOrder(SetStatus(s, p, st))
  {
    var s' := SetStatus(s, p, st);
    forall k | 0 <= k < s.calls
      ensures ResultOf(s', k) == ResultOf(s, k).(status := ResultOf(s', k).status)
      ensures NextOf(s', k) == NextOf(s, k).(status := NextOf(s', k).status)
    {
    }
    assert forall j :: p < j < |s.promises| ==> s.promises[j].status == Pending;
  }

  lemma AllBeforeAreSettled(s: State, p: nat)
    requires Chain(s) && InOrder(s) && 0 < p < |s.promises|
    requires s.promises[p].status != Pending || Settled(s.promises[p - 1].status)
    ensures forall i :: 0 <= i < p ==> Settled(s.promises[i].status)
  {
  }

  /** A result promise that can react belongs to the first call not yet started, and every
      call before it has ended. */
  lemma StartIsNext(s: State, k: nat)
    requires Inv(s) && k < s.calls && ResultOf(s, k).status == Pending
    requires forall i :: 0 <= i < 2 * k + 1 ==> Settled(s.promises[i].status)
    ensures |s.starts| == k && |s.ends| == k
    ensures s.promises[2 * k].status == Fulfilled
  {
    assert |s.starts| < k ==> Settled(ResultOf(s, |s.starts|).status);
    assert |s.ends| < k ==> Settled(ResultOf(s, |s.ends|).status);
    assert k > 0 ==> s.promises[2 * k] == NextOf(s, k - 1);
  }

  lemma StartKeeps(s: State, k: nat)
    requires Inv(s) && k < s.calls && ResultOf(s, k).status == Pending
    requires forall i :: 0 <= i < 2 * k + 1 ==> Settled(s.promises[i].status)
    ensures Inv(SetStatus(s, 2 * k + 1, Running).(starts := s.starts + [k]))
  {
    var s' := SetStatus(s, 2 * k + 1, Running).(starts := s.starts + [k]);
    StatusChangeKeepsOrder(s, 2 * k + 1, Running);
    StartIsNext(s, k);
    forall m | 0 <= m < s.calls
      ensures NextOf(s', m) == NextOf(s, m)
      ensures ResultOf(s', m) == if m == k then ResultOf(s, m).(status := Running) else ResultOf(s, m)
    {
    }
  }

  lemma TailKeeps(s: State, k: nat)
    requires Inv(s) && k < s.calls && NextOf(s, k).status == Pending
    requires forall i :: 0 <= i < 2 * k + 2 ==> Settled(s.promises[i].status)
    ensures Inv(SetStatus(s, 2 * k + 2, Fulfilled))
  {
    var s' := SetStatus(s, 2 * k + 2, Fulfilled);
    StatusChangeKeepsOrder(s, 2 * k + 2, Fulfilled);
    forall m | 0 <= m < s.calls
      ensures ResultOf(s', m) == ResultOf(s, m)
      ensures m != k ==> NextOf(s', m) == NextOf(s, m)
    {
    }
  }

  lemma ReactKeeps(s: State, p: nat)
    requires Inv(s) && Enabled(s, React(p))
    ensures Inv(ReactStep(s, p))
  {
    SourceIsPrevious(s, p);
    AllBeforeAreSettled(s, p);
    if p % 2 == 1 {
      StartIsNext(s, p / 2);
      StartKeeps(s, p / 2);
    } else {
      TailKeeps(s, p / 2 - 1);
    }
  }

  lemma EndIsNext(s: State, k: nat)
    requires Inv(s) && k < s.calls && ResultOf(s, k).status == Running
    ensures |s.ends| == k && |s.starts| == k + 1
  {
    assert |s.ends| < k ==> Settled(ResultOf(s, |s.ends|).status);
    assert k + 1 < s.calls ==> (ResultOf(s, k + 1).status == Pending || Settled(ResultOf(s, k).status));
  }

  lemma EndKeeps(s: State, k: nat, ok: bool)
    requires Inv(s) && k < s.calls && ResultOf(s, k).status == Running
    ensures Inv(SetStatus(s, 2 * k + 1, if ok then Fulfilled else Rejected).(ends := s.ends + [(k, ok)]))
  {
    var st := if ok then Fulfilled else Rejected;
    var s' := SetStatus(s, 2 * k + 1, st).(ends := s.ends + [(k, ok)]);
    AllBeforeAreSettled(s, 2 * k + 1);
    StatusChangeKeepsOrder(s, 2 * k + 1, st);
    EndIsNext(s, k);
    forall m | 0 <= m < s.calls
      ensures NextOf(s', m) == NextOf(s, m)
      ensures ResultOf(s', m) == if m == k then ResultOf(s, m).(status := st) else ResultOf(s, m)
    {
    }
  }

  lemma FinishKeeps(s: State, p: nat, ok: bool)
    requires Inv(s) && Enabled(s, Finish(p, ok))
    ensures Inv(FinishStep(s, p, ok))
  {
    assert 0 < p;
    SourceIsPrevious(s, p);
    assert p % 2 == 1;
    EndKeeps(s, p / 2, ok);
  }

  lemma {:induction false} RunKeepsInv(states: seq<State>, events: seq<Event>, n: nat)
    requires IsRun(states, events) && n < |states|
    ensures Inv(states[n])
  {
    if n > 0 {
      RunKeepsInv(states, events, n - 1);
      match events[n - 1]
      case Enqueue => EnqueueKeeps(states[n - 1]);
      case React(p) => ReactKeeps(states[n - 1], p);
      case Finish(p, ok) => FinishKeeps(states[n - 1], p, ok);
    }
  }

  // ---- What the queue is for ----

  /** In every reachable state at most one queued function is running. */
  lemma MutualExclusion(states: seq<State>, events: seq<Event>, n: nat, i: nat, j: nat)
    requires IsRun(states, events) && n < |states|
    requires i < |states[n].promises| && j < |states[n].promises|
    requires states[n].promises[i].status == Running && states[n].promises[j].status == Running
    ensures i == j
  {
    RunKeepsInv(states, events, n);
  }

  /** Functions start in call order, each at most once; they also end in call order, and the
      promise returned to a caller settles exactly with that caller's own function. */
  lemma StartsFollowCallOrder(states: seq<State>, events: seq<Event>, n: nat)
    requires IsRun(states, events) && n < |states|
    ensures var s := states[n];
            && |s.ends| <= |s.starts| <= |s.ends| + 1
            && (forall k :: 0 <= k < |s.starts| ==> s.starts[k] == k)
            && (forall k :: 0 <= k < |s.ends| ==> s.ends[k].0 == k)
            && |s.promises| == 2 * s.calls + 1
            && (forall k :: 0 <= k < s.calls ==> (Settled(ResultOf(s, k).status) <==> k < |s.ends|))
            && (forall k :: 0 <= k < s.calls && k < |s.ends| ==> (ResultOf(s, k).status == Fulfilled <==> s.ends[k].1))
  {
    RunKeepsInv(states, events, n);
    var s := states[n];
    var m := |s.ends|;
    assert m + 1 < s.calls ==> (ResultOf(s, m + 1).status == Pending || Settled(ResultOf(s, m).status));
  }

  ghost predicate Quiet(s: State) {
    && (forall p :: 0 <= p < |s.promises| ==> s.promises[p].status != Running)
    && (forall p: nat :: !Enabled(s, React(p)))
  }

  /** A failed function blocks nobody: when nothing runs and no reaction is due, every call
      ever made has been started, has ended, and its result has settled. */
  lemma NothingIsLeftBehind(states: seq<State>, events: seq<Event>, n: nat)
    requires IsRun(states, events) && n < |states| && Quiet(states[n])
    ensures |states[n].starts| == states[n].calls && |states[n].ends| == states[n].calls
    ensures forall p :: 0 <= p < |states[n].promises| ==> Settled(states[n].promises[p].status)
  {
    RunKeepsInv(states, events, n);
    var s := states[n];
    forall p | 0 <= p < |s.promises| ensures Settled(s.promises[p].status) {
      SettledUpTo(s, p);
    }
    assert |s.ends| < s.calls ==> Settled(ResultOf(s, |s.ends|).status);
  }

  lemma {:induction false} SettledUpTo(s: State, p: nat)
    requires Inv(s) && Quiet(s) && p < |s.promises|
    ensures Settled(s.promises[p].status)
  {
    if p > 0 {
      SettledUpTo(s, p - 1);
      SourceIsPrevious(s, p);
      assert !Enabled(s, React(p));
    }
  }

  /** The work left: a pending promise has two moves to make, a running one has one. */
  function Work(ps: seq<Promise>): nat {
    if ps == [] then 0
    else Work(ps[..|ps| - 1])
         + (match ps[|ps| - 1].status case Pending => 2 case Running => 1 case _ => 0)
  }

  lemma {:induction false} WorkAfterUpdate(ps: seq<Promise>, p: nat, pr: Promise)
    requires p < |ps|
    ensures Work(ps[p := pr]) + Work([ps[p]]) == Work(ps) + Work([pr])
  {
    var front := ps[..|ps| - 1];
    if p == |ps| - 1 {
      assert ps[p := pr][..|ps| - 1] == front;
    } else {
      assert ps[p := pr][..|ps| - 1] == front[p := pr];
      WorkAfterUpdate(front, p, pr);
    }
    assert [ps[p]][..0] == [] && [pr][..0] == [];
  }

  /** Every reaction and every ending uses up work, and only new calls add any: so without
      new calls the queue falls quiet once the functions it starts come to an end. */
  lemma WorkRunsOut(s: State, e: Event)
    requires Inv(s) && Enabled(s, e)
    ensures e.React? || e.Finish? ==> Work(Step(s, e).promises) < Work(s.promises)
    ensures e.Enqueue? ==> Work(Step(s, e).promises) == Work(s.promises) + 4
  {
    match e
    case Enqueue =>
      var ps := Step(s, e).promises;
      assert ps[..|ps| - 1][..|ps| - 2] == s.promises;
    case React(p) =>
      SourceIsPrevious(s, p);
      var pr := ReactStep(s, p).promises[p];
      WorkAfterUpdate(s.promises, p, pr);
      assert [s.promises[p]][..0] == [] && [pr][..0] == [];
    case Finish(p, ok) =>
      var pr := FinishStep(s, p, ok).promises[p];
      WorkAfterUpdate(s.promises, p, pr);
      assert [s.promises[p]][..0] == [] && [pr][..0] == [];
  }

  function Moves(events: seq<Event>, n: nat): nat
    requires n <= |events|
  {
    if n == 0 then 0 else Moves(events, n - 1) + if events[n - 1].Enqueue? then 0 else 1
  }

  /** Over a whole run, reactions and endings together never exceed four per call made. */
  lemma {:induction false} MovesAreBounded(states: seq<State>, events: seq<Event>, n: nat)
    requires IsRun(states, events) && n < |states|
    ensures Moves(events, n) + Work(states[n].promises) <= 4 * states[n].calls
  {
    if n > 0 {
      MovesAreBounded(states, events, n - 1);
      RunKeepsInv(states, events, n - 1);
      WorkRunsOut(states[n - 1], events[n - 1]);
    }
  }

  // ---- The code ----

  class MonadTxQueue {
    var promises: seq<Promise>
    /** The index of the promise that the module variable holds. */
    var monadTxQueue: nat
    var calls: nat
    ghost var starts: seq<nat>
    ghost var ends: seq<(nat, bool)>

    ghost function Abs(): State
      reads this
    {
      State(promises, monadTxQueue, calls, starts, ends)
    }

    constructor ()
      ensures Abs() == INIT
    {
      promises, monadTxQueue, calls := [Promise(Fulfilled, 0, Noop, Noop)], 0, 0;
      starts, ends := [], [];
    }

    /** then(): a new pending promise that reacts to an existing one. */
    method Then(source: nat, onFulfilled: Handler, onRejected: Handler) returns (p: nat)
      modifies this`promises
      ensures p == |old(promises)| && promises == old(promises) + [Promise(Pending, source, onFulfilled, onRejected)]
    {
      p := |promises|;
      promises := promises + [Promise(Pending, source, onFulfilled, onRejected)];
    }

    /** Returns the promise for the caller's own function. */
    method QueueMonadTx() returns (result: nat)
      modifies this`promises, this`monadTxQueue, this`calls
      ensures Abs() == Step(old(Abs()), Enqueue)
      ensures result == |old(promises)|
    {
      result := Then(monadTxQueue, Call(calls), PassOn);
      monadTxQueue := Then(result, Noop, Noop);
      calls := calls + 1;
    }
  }
}
