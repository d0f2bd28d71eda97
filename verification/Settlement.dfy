/** Batched settlement with retry, as a state machine. An attempt leaves the pending map
    before its first await and finishes, either way, at some later moment; in between,
    payouts keep being queued, other attempts begin and finish, and sweeps run. Both token
    distributors follow this machine and differ only in their threshold. */
module Settlement {
  import opened Protocol
  import opened Amounts

  datatype Batch = Batch(worker: Pubkey, jobs: seq<Payout>, total: Sum, retries: nat)

  /** An attempt in flight, with its number in the log of attempts. */
  datatype Flight = Flight(id: nat, batch: Batch)

  /** A suspended sweep: the workers still to visit and the attempt it is waiting for.
      targets and since record what was pending, and how many attempts had begun, at its start. */
  datatype Sweep = Sweep(queue: seq<Pubkey>, awaiting: Option<nat>, targets: seq<Payout>, since: nat)

  datatype Account = Account(worker: Pubkey, sum: Sum)

  /** pending and accounts are in the insertion order of the maps they model. The fields
      from queued on are history: what has been queued, tried, settled and abandoned. */
  datatype Ledger = Ledger(
    pending: seq<Batch>,
    inFlight: seq<Flight>,
    settling: bool,
    sweeps: seq<Sweep>,
    accounts: seq<Account>,
    queued: seq<Payout>,
    attempts: seq<seq<Payout>>,
    settled: seq<Payout>,
    abandoned: seq<Payout>,
    failures: multiset<Payout>,
    finished: nat,
    minted: int)

  datatype Event =
    | Queue(worker: Pubkey, jobId: JobId, amount: real)
    | Succeed(k: nat)
    | Fail(k: nat)
    | StartSweep
    | AdvanceSweep(i: nat)

  const MAX_RETRIES := 3

  function IndexOfBatch(bs: seq<Batch>, w: Pubkey): (i: nat)
    ensures i <= |bs|
    ensures i < |bs| ==> bs[i].worker == w
    ensures forall k :: 0 <= k < i ==> bs[k].worker != w
  {
    IndexOf(Keys(bs), w)
  }

  function Holders(xs: seq<Account>): (ks: seq<Pubkey>)
    ensures |ks| == |xs|
    ensures forall i :: 0 <= i < |xs| ==> ks[i] == xs[i].worker
  {
    seq(|xs|, i requires 0 <= i < |xs| => xs[i].worker)
  }

  function IndexOfAccount(xs: seq<Account>, w: Pubkey): (i: nat)
    ensures i <= |xs|
    ensures i < |xs| ==> xs[i].worker == w
    ensures forall k :: 0 <= k < i ==> xs[k].worker != w
  {
    IndexOf(Holders(xs), w)
  }

  function Without<T>(s: seq<T>, i: nat): (r: seq<T>)
    requires i < |s|
    ensures |r| == |s| - 1
    ensures forall k :: 0 <= k < |r| ==> r[k] == if k < i then s[k] else s[k + 1]
  {
    s[..i] + s[i + 1..]
  }

  function Keys(bs: seq<Batch>): (ws: seq<Pubkey>)
    ensures |ws| == |bs|
    ensures forall k :: 0 <= k < |bs| ==> ws[k] == bs[k].worker
  {
    seq(|bs|, k requires 0 <= k < |bs| => bs[k].worker)
  }

  function JobLists(bs: seq<Batch>): (xs: seq<seq<Payout>>)
    ensures |xs| == |bs|
    ensures forall k :: 0 <= k < |bs| ==> xs[k] == bs[k].jobs
  {
    seq(|bs|, k requires 0 <= k < |bs| => bs[k].jobs)
  }

  function Batches(fs: seq<Flight>): (bs: seq<Batch>)
    ensures |bs| == |fs|
    ensures forall k :: 0 <= k < |fs| ==> bs[k] == fs[k].batch
  {
    seq(|fs|, k requires 0 <= k < |fs| => fs[k].batch)
  }

  function LeafLists(xs: seq<Account>): (ps: seq<seq<Payout>>)
    ensures |ps| == |xs|
    ensures forall k :: 0 <= k < |xs| ==> ps[k] == Leaves(xs[k].sum)
  {
    seq(|xs|, k requires 0 <= k < |xs| => Leaves(xs[k].sum))
  }

  function Flatten(xs: seq<seq<Payout>>): seq<Payout> {
    if xs == [] then [] else xs[0] + Flatten(xs[1..])
  }

  function JobsOf(bs: seq<Batch>): seq<Payout> {
    Flatten(JobLists(bs))
  }

  // ---- The pieces of a step ----

  function NewBatch(p: Payout): Batch {
    Batch(p.worker, [p], Leaf(p), 0)
  }

  function Join(b: Batch, p: Payout): Batch {
    b.(jobs := b.jobs + [p], total := Add(b.total, Leaf(p)))
  }

  /** The failed batch goes in front of what has accumulated since; the retry count of
      the batch that is pending now is the one that stays. */
  function Merge(current: Batch, failed: Batch): Batch {
    current.(jobs := failed.jobs + current.jobs, total := Add(current.total, failed.total))
  }

  /** A batch leaves the pending map and its attempt begins. */
  function Begin(l: Ledger, i: nat): Ledger
    requires i < |l.pending|
  {
    l.(pending := Without(l.pending, i),
       inFlight := l.inFlight + [Flight(|l.attempts|, l.pending[i])],
       attempts := l.attempts + [l.pending[i].jobs])
  }

  /** settleWorker up to its first await; nothing happens without a non-empty batch. */
  function SettleWorker(l: Ledger, w: Pubkey): Ledger {
    var i := IndexOfBatch(l.pending, w);
    if i == |l.pending| || l.pending[i].jobs == [] then l else Begin(l, i)
  }

  function Enqueue(l: Ledger, p: Payout): Ledger {
    var i := IndexOfBatch(l.pending, p.worker);
    l.(queued := l.queued + [p],
       pending := if i == |l.pending| then l.pending + [NewBatch(p)]
                  else l.pending[i := Join(l.pending[i], p)])
  }

  /** A first payout never settles at once; a later one does when the batch reaches the threshold. */
  function QueueStep(l: Ledger, threshold: nat, w: Pubkey, jobId: JobId, amount: real): Ledger {
    var i := IndexOfBatch(l.pending, w);
    var l1 := Enqueue(l, Payout(|l.queued|, w, jobId, amount));
    if i < |l.pending| && |l.pending[i].jobs| + 1 >= threshold then SettleWorker(l1, w) else l1
  }

  function Credit(xs: seq<Account>, w: Pubkey, sum: Sum): seq<Account> {
    var i := IndexOfAccount(xs, w);
    if i == |xs| then xs + [Account(w, sum)] else xs[i := Account(w, Add(xs[i].sum, sum))]
  }

  /** The binary64 balance of a worker, zero without an account. */
  function Balance(xs: seq<Account>, w: Pubkey): real {
    var i := IndexOfAccount(xs, w);
    if i < |xs| then Eval(xs[i].sum) else 0.0
  }

  function SucceedStep(l: Ledger, k: nat): Ledger
    requires k < |l.inFlight|
  {
    var b := l.inFlight[k].batch;
    l.(inFlight := Without(l.inFlight, k),
       accounts := Credit(l.accounts, b.worker, b.total),
       settled := l.settled + b.jobs,
       finished := l.finished + 1,
       minted := l.minted + RawUnits(b.total))
  }

  function Requeue(bs: seq<Batch>, b: Batch): seq<Batch> {
    var i := IndexOfBatch(bs, b.worker);
    if i == |bs| then bs + [b] else bs[i := Merge(bs[i], b)]
  }

  /** The batch with one more failure on its count. */
  function FailedOnce(b: Batch): Batch {
    b.(retries := b.retries + 1)
  }

  function FailStep(l: Ledger, k: nat): Ledger
    requires k < |l.inFlight|
  {
    var b := FailedOnce(l.inFlight[k].batch);
    var l1 := l.(inFlight := Without(l.inFlight, k),
                 failures := l.failures + multiset(b.jobs),
                 finished := l.finished + 1);
    if b.retries < MAX_RETRIES then l1.(pending := Requeue(l.pending, b))
    else l1.(abandoned := l.abandoned + b.jobs)
  }

  function StartStep(l: Ledger): Ledger {
    if l.settling then l
    else l.(settling := true,
            sweeps := l.sweeps + [Sweep(Keys(l.pending), None, JobsOf(l.pending), |l.attempts|)])
  }

  predicate Flying(fs: seq<Flight>, id: nat) {
    exists k :: 0 <= k < |fs| && fs[k].id == id
  }

  predicate Waiting(l: Ledger, sw: Sweep) {
    sw.awaiting.Some? && Flying(l.inFlight, sw.awaiting.value)
  }

  /** One turn of a sweep's loop, or its end. */
  function AdvanceStep(l: Ledger, i: nat): Ledger
    requires i < |l.sweeps|
  {
    var sw := l.sweeps[i];
    if sw.queue == [] then l.(settling := false, sweeps := Without(l.sweeps, i))
    else
      var l1 := SettleWorker(l, sw.queue[0]);
      var awaiting := if |l1.attempts| > |l.attempts| then Some(|l.attempts|) else None;
      l1.(sweeps := l.sweeps[i := sw.(queue := sw.queue[1..], awaiting := awaiting)])
  }

  predicate Enabled(l: Ledger, e: Event) {
    match e
    case Succeed(k) => k < |l.inFlight|
    case Fail(k) => k < |l.inFlight|
    case AdvanceSweep(i) => i < |l.sweeps| && !Waiting(l, l.sweeps[i])
    case _ => true
  }

  function Step(l: Ledger, threshold: nat, e: Event): Ledger
    requires Enabled(l, e)
  {
    match e
    case Queue(w, jobId, amount) => QueueStep(l, threshold, w, jobId, amount)
    case Succeed(k) => SucceedStep(l, k)
    case Fail(k) => FailStep(l, k)
    case StartSweep => StartStep(l)
    case AdvanceSweep(i) => AdvanceStep(l, i)
  }

  const EMPTY := Ledger([], [], false, [], [], [], [], [], [], multiset{}, 0, 0)

  ghost predicate IsRun(ledgers: seq<Ledger>, threshold: nat, events: seq<Event>) {
    && |ledgers| == |events| + 1
    && ledgers[0] == EMPTY
    && forall i {:trigger events[i]} :: 0 <= i < |events| ==>
         Enabled(ledgers[i], events[i]) && ledgers[i + 1] == Step(ledgers[i], threshold, events[i])
  }
}
