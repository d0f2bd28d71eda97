/** What decides between two workers: the exchange rates between heartbeats, reputation,
    stake and kind, stated about who is claimed and not about scores. */
module SelectionDuels {
  import opened Protocol
  import opened Selection

  /** Nobody else is eligible. */
  ghost predicate OnlyThese(ws: seq<Worker>, c: Claim, i: nat, j: nat) {
    forall k: nat :: k < |ws| && k != i && k != j ==> !Eligible(ws[k], c)
  }

  /** lead, the advantage of i over j, decides between them: if it is positive, or zero and i
      registered earlier, then j is not claimed whoever else there is, and if there is nobody
      else then i is claimed in exactly these cases. */
  ghost predicate DecidedBy(ws: seq<Worker>, c: Claim, now: int, i: nat, j: nat, lead: real) {
    var ahead := lead > 0.0 || (lead == 0.0 && i < j);
    && (ahead ==> Best(ws, c, now) != Some(j))
    && (OnlyThese(ws, c, i, j) ==> (Best(ws, c, now) == Some(i) <==> ahead))
  }

  ghost predicate Rivals(ws: seq<Worker>, c: Claim, i: nat, j: nat) {
    i < |ws| && j < |ws| && i != j && Eligible(ws[i], c) && Eligible(ws[j], c)
  }

  lemma ScoresDecide(ws: seq<Worker>, c: Claim, now: int, i: nat, j: nat, lead: real)
    requires Rivals(ws, c, i, j)
    requires lead == (Score(ws[i], c, now) - Score(ws[j], c, now)) * 10000.0
    ensures DecidedBy(ws, c, now, i, j, lead)
  {
    BestIsTheWinner(ws, c, now);
    assert Before(ws, c, now, i, j) <==> lead > 0.0 || (lead == 0.0 && i < j);
    if Before(ws, c, now, i, j) && OnlyThese(ws, c, i, j) { assert Wins(ws, c, now, i); }
  }

  /** When a worker was last heard from; a silence of more than 50 seconds counts as 50. */
  function Heard(w: Worker, now: int): real {
    if now - w.heartbeat < 50000 then w.heartbeat as real else now as real - 50000.0
  }

  /** An unknown reputation counts as none. */
  function Reputation(w: Worker): real {
    if w.reputation.Some? then w.reputation.value else 0.0
  }

  /** A reputation point in milliseconds of heartbeat. */
  function PointWorth(w: Worker): real {
    if w.stake == Some(Sentinel) then 2000.0 else if w.stake == Some(Verified) then 1500.0 else 1000.0
  }

  function StakeWorth(w: Worker): real {
    if w.stake == Some(Sentinel) then 100000.0 else if w.stake == Some(Verified) then 50000.0 else 0.0
  }

  function KindWorth(w: Worker, c: Claim): real {
    if c.policy == Fast && w.kind == Desktop then 100000.0
    else if c.policy == Cheap && c.jobType == Task && w.kind == Seeker then 100000.0
    else 0.0
  }

  /** What counts for a worker, in milliseconds of heartbeat. */
  function Worth(w: Worker, c: Claim, now: int): real {
    KindWorth(w, c) + Heard(w, now) + Reputation(w) * PointWorth(w) + StakeWorth(w)
  }

  lemma ScoreInMilliseconds(w: Worker, c: Claim, now: int)
    ensures Score(w, c, now) * 10000.0 == Worth(w, c, now) - (now as real - 50000.0)
  {
    FreshnessInMilliseconds(w, now);
    ReputationInMilliseconds(w);
    Distribute(TypeBonus(w.kind, c), Freshness(w.heartbeat, now),
               ReputationBonus(w.reputation, Tier(w)), StakeBonus(Tier(w)));
  }

  lemma Distribute(a: real, b: real, c: real, d: real)
    ensures (a + b + c + d) * 10000.0 == a * 10000.0 + b * 10000.0 + c * 10000.0 + d * 10000.0
  {
  }

  lemma Difference(a: real, b: real, x: real, y: real, z: real)
    requires a * 10000.0 == x - z && b * 10000.0 == y - z
    ensures (a - b) * 10000.0 == x - y
  {
  }

  lemma FreshnessInMilliseconds(w: Worker, now: int)
    ensures Freshness(w.heartbeat, now) * 10000.0 == Heard(w, now) - (now as real - 50000.0)
  {
  }

  lemma ReputationInMilliseconds(w: Worker)
    ensures ReputationBonus(w.reputation, Tier(w)) * 10000.0 == Reputation(w) * PointWorth(w)
  {
    if w.reputation.Some? {
      var v := w.reputation.value;
      match Tier(w)
      case Open => assert v / 100.0 * 10.0 * 1.0 * 10000.0 == v * 1000.0;
      case Verified => assert v / 100.0 * 10.0 * 1.5 * 10000.0 == v * 1500.0;
      case Sentinel => assert v / 100.0 * 10.0 * 2.0 * 10000.0 == v * 2000.0;
    }
  }

  /** The whole trade-off, in milliseconds of heartbeat: the preferred kind is worth 100
      seconds, the stake tiers 50 and 100 seconds, and a reputation point one second, one and
      a half or two depending on the stake. */
  lemma LeadDecides(ws: seq<Worker>, c: Claim, now: int, i: nat, j: nat)
    requires Rivals(ws, c, i, j)
    ensures DecidedBy(ws, c, now, i, j, Worth(ws[i], c, now) - Worth(ws[j], c, now))
  {
    WorthIsScored(ws[i], ws[j], c, now);
    ScoresDecide(ws, c, now, i, j, Worth(ws[i], c, now) - Worth(ws[j], c, now));
  }

  lemma WorthIsScored(v: Worker, w: Worker, c: Claim, now: int)
    ensures Worth(v, c, now) - Worth(w, c, now) == (Score(v, c, now) - Score(w, c, now)) * 10000.0
  {
    ScoreInMilliseconds(v, c, now);
    ScoreInMilliseconds(w, c, now);
    Difference(Score(v, c, now), Score(w, c, now), Worth(v, c, now), Worth(w, c, now), now as real - 50000.0);
  }

  ghost predicate SameKindAndStake(v: Worker, w: Worker) {
    v.kind == w.kind && v.stake == w.stake
  }

  /** Between workers of one kind and stake, seconds are traded for reputation points at a
      rate that the stake sets. */
  lemma SecondsAgainstReputation(ws: seq<Worker>, c: Claim, now: int, i: nat, j: nat)
    requires Rivals(ws, c, i, j) && SameKindAndStake(ws[i], ws[j])
    ensures ws[i].stake in {None, Some(Open)} ==>
              DecidedBy(ws, c, now, i, j,
                Heard(ws[i], now) - Heard(ws[j], now) + (Reputation(ws[i]) - Reputation(ws[j])) * 1000.0)
    ensures ws[i].stake == Some(Verified) ==>
              DecidedBy(ws, c, now, i, j,
                Heard(ws[i], now) - Heard(ws[j], now) + (Reputation(ws[i]) - Reputation(ws[j])) * 1500.0)
    ensures ws[i].stake == Some(Sentinel) ==>
              DecidedBy(ws, c, now, i, j,
                Heard(ws[i], now) - Heard(ws[j], now) + (Reputation(ws[i]) - Reputation(ws[j])) * 2000.0)
  {
    LeadDecides(ws, c, now, i, j);
  }

  /** Of two eligible workers alike in kind, reputation and stake, the one heard from less
      recently is never claimed, as long as the other was heard from in the last 50 seconds. */
  lemma LessRecentNeverWins(ws: seq<Worker>, c: Claim, now: int, i: nat, j: nat)
    requires Rivals(ws, c, i, j) && SameKindAndStake(ws[i], ws[j]) && ws[i].reputation == ws[j].reputation
    requires ws[j].heartbeat < ws[i].heartbeat && now < ws[i].heartbeat + 50000
    ensures Best(ws, c, now) != Some(j)
  {
    LeadDecides(ws, c, now, i, j);
  }

  /** Of two eligible workers alike in kind, heartbeat and stake, the less reputable one is
      never claimed. */
  lemma LessReputableNeverWins(ws: seq<Worker>, c: Claim, now: int, i: nat, j: nat)
    requires Rivals(ws, c, i, j) && SameKindAndStake(ws[i], ws[j]) && ws[i].heartbeat == ws[j].heartbeat
    requires Reputation(ws[j]) < Reputation(ws[i])
    ensures Best(ws, c, now) != Some(j)
  {
    LeadDecides(ws, c, now, i, j);
    assert Reputation(ws[j]) * PointWorth(ws[j]) < Reputation(ws[i]) * PointWorth(ws[j]);
  }

  /** Between workers alike in kind and heartbeat, a stake outweighs a reputation up to a point:
      VERIFIED against OPEN, SENTINEL against OPEN and SENTINEL against VERIFIED. */
  lemma StakeAgainstReputation(ws: seq<Worker>, c: Claim, now: int, i: nat, j: nat)
    requires Rivals(ws, c, i, j) && ws[i].kind == ws[j].kind && ws[i].heartbeat == ws[j].heartbeat
    ensures ws[i].stake == Some(Verified) && ws[j].stake in {None, Some(Open)} ==>
              DecidedBy(ws, c, now, i, j, 50.0 + 1.5 * Reputation(ws[i]) - Reputation(ws[j]))
    ensures ws[i].stake == Some(Sentinel) && ws[j].stake in {None, Some(Open)} ==>
              DecidedBy(ws, c, now, i, j, 100.0 + 2.0 * Reputation(ws[i]) - Reputation(ws[j]))
    ensures ws[i].stake == Some(Sentinel) && ws[j].stake == Some(Verified) ==>
              DecidedBy(ws, c, now, i, j, 50.0 + 2.0 * Reputation(ws[i]) - 1.5 * Reputation(ws[j]))
  {
    LeadDecides(ws, c, now, i, j);
  }

  /** Between workers alike in heartbeat and without a stake, a desktop is worth 100 reputation
      points to a FAST claim, a seeker as much to a CHEAP task, and to any other claim the kind
      makes no difference. */
  lemma KindAgainstReputation(ws: seq<Worker>, c: Claim, now: int, i: nat, j: nat)
    requires Rivals(ws, c, i, j) && ws[i].heartbeat == ws[j].heartbeat && ws[i].stake.None? && ws[j].stake.None?
    requires ws[i].kind == Desktop && ws[j].kind == Seeker
    ensures DecidedBy(ws, c, now, i, j,
              Reputation(ws[i]) - Reputation(ws[j])
              + if c.policy == Fast then 100.0 else if c.jobType == Task then -100.0 else 0.0)
  {
    LeadDecides(ws, c, now, i, j);
  }
}
