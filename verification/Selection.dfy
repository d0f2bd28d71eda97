/** Choosing a worker for a job: eligibility, scoring, and the equivalence between
    "filter, sort stably by score, take the head" and a linear search for the best. */
module Selection {
  import opened Protocol

  datatype Worker = Worker(
    id: string,
    pubkey: Pubkey,
    kind: ProviderType,
    caps: seq<JobType>,
    busy: bool,
    heartbeat: int,
    active: Option<JobId>,
    reputation: Option<real>,
    stake: Option<StakeTier>)

  /** What a claim asks for. A public claim carries no trust requirement. */
  datatype Claim = Claim(jobType: JobType, policy: Policy, trusted: Option<set<Pubkey>>)

  predicate Eligible(w: Worker, c: Claim) {
    && !w.busy
    && c.jobType in w.caps
    && (c.trusted.Some? ==> w.pubkey in c.trusted.value)
  }

  function Tier(w: Worker): StakeTier {
    if w.stake.Some? then w.stake.value else Open
  }

  function TypeBonus(kind: ProviderType, c: Claim): real {
    if c.policy == Fast then (if kind == Desktop then 10.0 else 0.0)
    else if c.jobType == Task && kind == Seeker then 10.0
    else 0.0
  }

  function Freshness(heartbeat: int, now: int): real {
    var left := 5.0 - (now - heartbeat) as real / 10000.0;
    if left > 0.0 then left else 0.0
  }

  function ReputationBonus(reputation: Option<real>, tier: StakeTier): real {
    if reputation.Some? then reputation.value / 100.0 * 10.0 * RepMultiplier(tier) else 0.0
  }

  function Score(w: Worker, c: Claim, now: int): real {
    TypeBonus(w.kind, c) + Freshness(w.heartbeat, now)
    + ReputationBonus(w.reputation, Tier(w)) + StakeBonus(Tier(w))
  }

  // ---- The reference form: one left-to-right pass keeping the best so far ----

  function BestUpTo(ws: seq<Worker>, c: Claim, now: int, n: nat): Option<nat>
    requires n <= |ws|
    ensures BestUpTo(ws, c, now, n).Some? ==> BestUpTo(ws, c, now, n).value < n
  {
    if n == 0 then None
    else
      var b := BestUpTo(ws, c, now, n - 1);
      if Eligible(ws[n - 1], c) && (b.None? || Score(ws[n - 1], c, now) > Score(ws[b.value], c, now))
      then Some(n - 1) else b
  }

  function Best(ws: seq<Worker>, c: Claim, now: int): (b: Option<nat>)
    ensures b.Some? ==> b.value < |ws|
  {
    BestUpTo(ws, c, now, |ws|)
  }

  /** i is served before j: a higher score, or the same score and an earlier registration. */
  predicate Before(ws: seq<Worker>, c: Claim, now: int, i: nat, j: nat)
    requires i < |ws| && j < |ws|
  {
    || Score(ws[i], c, now) > Score(ws[j], c, now)
    || (Score(ws[i], c, now) == Score(ws[j], c, now) && i < j)
  }

  /** Among the first n workers, i is eligible and served before every other eligible one. */
  ghost predicate WinsUpTo(ws: seq<Worker>, c: Claim, now: int, n: nat, i: nat)
    requires n <= |ws|
  {
    && i < n
    && Eligible(ws[i], c)
    && forall j: nat :: j < n && j != i && Eligible(ws[j], c) ==> Before(ws, c, now, i, j)
  }

  ghost predicate Wins(ws: seq<Worker>, c: Claim, now: int, i: nat) {
    WinsUpTo(ws, c, now, |ws|, i)
  }

  lemma {:induction false} BestUpToWins(ws: seq<Worker>, c: Claim, now: int, n: nat)
    requires n <= |ws|
    ensures BestUpTo(ws, c, now, n).None? <==> forall j: nat :: j < n ==> !Eligible(ws[j], c)
    ensures BestUpTo(ws, c, now, n).Some? ==> WinsUpTo(ws, c, now, n, BestUpTo(ws, c, now, n).value)
  {
    if n > 0 { BestUpToWins(ws, c, now, n - 1); }
  }

  /** A claim finds nobody exactly when nobody is eligible, and otherwise finds the one
      worker that beats every other eligible worker, ties going to the earlier registered. */
  lemma BestIsTheWinner(ws: seq<Worker>, c: Claim, now: int)
    ensures Best(ws, c, now).None? <==> forall j: nat :: j < |ws| ==> !Eligible(ws[j], c)
    ensures forall i: nat :: Best(ws, c, now) == Some(i) <==> Wins(ws, c, now, i)
  {
    BestUpToWins(ws, c, now, |ws|);
  }

  // ---- The form the hub runs: filter, stable descending sort, take the head ----

  /** The eligible indices among the first n workers, in registration order. */
  function Candidates(ws: seq<Worker>, c: Claim, n: nat): seq<nat>
    requires n <= |ws|
  {
    if n == 0 then []
    else if Eligible(ws[n - 1], c) then Candidates(ws, c, n - 1) + [n - 1]
    else Candidates(ws, c, n - 1)
  }

  lemma {:induction false} CandidatesAreEligible(ws: seq<Worker>, c: Claim, n: nat)
    requires n <= |ws|
    ensures forall i: nat :: i in Candidates(ws, c, n) <==> i < n && Eligible(ws[i], c)
    ensures Increasing(Candidates(ws, c, n))
    ensures InRange(Candidates(ws, c, n), n)
  {
    if n > 0 {
      CandidatesAreEligible(ws, c, n - 1);
    }
  }

  ghost predicate Increasing(s: seq<nat>) {
    forall x, y :: 0 <= x < y < |s| ==> s[x] < s[y]
  }

  ghost predicate InRange(s: seq<nat>, n: nat) {
    forall x :: 0 <= x < |s| ==> s[x] < n
  }

  function Scores(ws: seq<Worker>, c: Claim, now: int): (key: seq<real>)
    ensures |key| == |ws|
    ensures forall i :: 0 <= i < |ws| ==> key[i] == Score(ws[i], c, now)
  {
    seq(|ws|, i requires 0 <= i < |ws| => Score(ws[i], c, now))
  }

  ghost predicate Descending(key: seq<real>, s: seq<nat>)
    requires InRange(s, |key|)
  {
    forall x, y :: 0 <= x < y < |s| ==> key[s[x]] >= key[s[y]]
  }

  /** Elements that compare equal keep the relative order they had, which for a list of
      candidates is registration order. */
  ghost predicate Stable(key: seq<real>, s: seq<nat>)
    requires InRange(s, |key|)
  {
    forall x, y :: 0 <= x < y < |s| && key[s[x]] == key[s[y]] ==> s[x] < s[y]
  }

  /** s is what a stable descending sort by key makes of the candidate list. */
  ghost predicate IsStableSort(key: seq<real>, cands: seq<nat>, s: seq<nat>) {
    && multiset(s) == multiset(cands)
    && InRange(s, |key|)
    && Descending(key, s)
    && Stable(key, s)
  }

  lemma SortKeepsMembers(cands: seq<nat>, s: seq<nat>)
    requires multiset(s) == multiset(cands)
    ensures |s| == |cands|
    ensures forall i: nat :: i in s <==> i in cands
  {
    assert |multiset(s)| == |multiset(cands)|;
    forall i: nat ensures i in s <==> i in cands {
      assert i in s <==> i in multiset(s);
      assert i in cands <==> i in multiset(cands);
    }
  }

  /** Filtering, sorting stably and taking the head is the linear search. */
  lemma SortedHeadIsBest(ws: seq<Worker>, c: Claim, now: int, s: seq<nat>)
    requires IsStableSort(Scores(ws, c, now), Candidates(ws, c, |ws|), s)
    ensures s == [] <==> Best(ws, c, now).None?
    ensures s != [] ==> Best(ws, c, now) == Some(s[0])
  {
    CandidatesAreEligible(ws, c, |ws|);
    SortKeepsMembers(Candidates(ws, c, |ws|), s);
    BestIsTheWinner(ws, c, now);
    if s == [] {
      forall j: nat | j < |ws| ensures !Eligible(ws[j], c) {
        assert j !in s;
      }
    } else {
      assert s[0] in s;
      forall j: nat | j < |ws| && j != s[0] && Eligible(ws[j], c)
        ensures Before(ws, c, now, s[0], j)
      {
        assert j in s;
        var y :| 0 <= y < |s| && s[y] == j;
      }
      assert Wins(ws, c, now, s[0]);
    }
  }

  /** The workers after the one at index i has been claimed. */
  function MarkBusy(ws: seq<Worker>, i: nat): seq<Worker>
    requires i < |ws|
  {
    ws[i := ws[i].(busy := true)]
  }

  /** The indices returned by k claims made one after the other at one instant. */
  function ClaimMany(ws: seq<Worker>, c: Claim, now: int, k: nat): seq<nat>
    decreases k
  {
    if k == 0 then []
    else match Best(ws, c, now)
      case None => []
      case Some(i) => [i] + ClaimMany(MarkBusy(ws, i), c, now, k - 1)
  }

  /** s lists every eligible worker once. */
  ghost predicate Lists(ws: seq<Worker>, c: Claim, s: seq<nat>) {
    && (forall i: nat :: i in s <==> i < |ws| && Eligible(ws[i], c))
    && forall x, y :: 0 <= x < y < |s| ==> s[x] != s[y]
  }

  ghost predicate ServedInOrder(ws: seq<Worker>, c: Claim, now: int, s: seq<nat>)
    requires InRange(s, |ws|)
  {
    forall x, y :: 0 <= x < y < |s| ==> Before(ws, c, now, s[x], s[y])
  }

  lemma HeadOfListWins(ws: seq<Worker>, c: Claim, now: int, s: seq<nat>)
    requires s != [] && Lists(ws, c, s) && InRange(s, |ws|) && ServedInOrder(ws, c, now, s)
    ensures Best(ws, c, now) == Some(s[0])
  {
    assert s[0] in s;
    assert Wins(ws, c, now, s[0]) by {
      forall j: nat | j < |ws| && j != s[0] && Eligible(ws[j], c)
        ensures Before(ws, c, now, s[0], j)
      {
        assert j in s;
        var y :| 0 <= y < |s| && s[y] == j;
      }
    }
    BestIsTheWinner(ws, c, now);
  }

  lemma ClaimShortensTheList(ws: seq<Worker>, c: Claim, now: int, s: seq<nat>)
    requires s != [] && Lists(ws, c, s) && InRange(s, |ws|) && ServedInOrder(ws, c, now, s)
    ensures var ws' := MarkBusy(ws, s[0]);
            InRange(s[1..], |ws'|) && Lists(ws', c, s[1..]) && ServedInOrder(ws', c, now, s[1..])
  {
    var ws', rest := MarkBusy(ws, s[0]), s[1..];
    assert s == [s[0]] + rest;
    forall i: nat ensures i in rest <==> i < |ws'| && Eligible(ws'[i], c) {
      assert i in s <==> i == s[0] || i in rest;
    }
    forall x, y | 0 <= x < y < |rest|
      ensures Before(ws', c, now, rest[x], rest[y])
    {
      assert Before(ws, c, now, s[x + 1], s[y + 1]);
    }
  }

  lemma EmptyListMeansNobody(ws: seq<Worker>, c: Claim, now: int)
    requires Lists(ws, c, [])
    ensures Best(ws, c, now).None?
  {
    BestIsTheWinner(ws, c, now);
    forall j: nat | j < |ws| ensures !Eligible(ws[j], c) {
      assert j !in [];
    }
  }

  lemma {:induction false} ClaimsFollowTheList(ws: seq<Worker>, c: Claim, now: int, s: seq<nat>, k: nat)
    requires Lists(ws, c, s) && InRange(s, |ws|) && ServedInOrder(ws, c, now, s)
    ensures ClaimMany(ws, c, now, k) == s[..if k <= |s| then k else |s|]
    decreases k
  {
    if k == 0 {
    } else if s == [] {
      EmptyListMeansNobody(ws, c, now);
    } else {
      HeadOfListWins(ws, c, now, s);
      ClaimShortensTheList(ws, c, now, s);
      ClaimsFollowTheList(MarkBusy(ws, s[0]), c, now, s[1..], k - 1);
      var m := if k <= |s| then k else |s|;
      assert [s[0]] + s[1..][..m - 1] == s[..m];
    }
  }

  lemma StableSortServesInOrder(ws: seq<Worker>, c: Claim, now: int, s: seq<nat>)
    requires IsStableSort(Scores(ws, c, now), Candidates(ws, c, |ws|), s)
    ensures Lists(ws, c, s) && InRange(s, |ws|) && ServedInOrder(ws, c, now, s)
  {
    var cands := Candidates(ws, c, |ws|);
    CandidatesAreEligible(ws, c, |ws|);
    SortKeepsMembers(cands, s);
    IncreasingHasNoRepeats(cands);
    forall x, y | 0 <= x < y < |s| ensures s[x] != s[y] {
      TwoPlacesCountTwice(s, x, y);
    }
    var key := Scores(ws, c, now);
    forall x, y | 0 <= x < y < |s| ensures Before(ws, c, now, s[x], s[y]) {
      assert key[s[x]] >= key[s[y]];
    }
  }

  /** k claims of one kind at one instant return the first k entries of the stable sort,
      all different; once the list is used up further claims find nobody. */
  lemma ClaimsTakeThePrefixOfTheSort(ws: seq<Worker>, c: Claim, now: int, s: seq<nat>, k: nat)
    requires IsStableSort(Scores(ws, c, now), Candidates(ws, c, |ws|), s)
    ensures ClaimMany(ws, c, now, k) == s[..if k <= |s| then k else |s|]
    ensures forall x, y :: 0 <= x < y < |ClaimMany(ws, c, now, k)| ==>
              ClaimMany(ws, c, now, k)[x] != ClaimMany(ws, c, now, k)[y]
  {
    StableSortServesInOrder(ws, c, now, s);
    ClaimsFollowTheList(ws, c, now, s, k);
  }

  lemma {:induction false} IncreasingHasNoRepeats(s: seq<nat>)
    requires Increasing(s)
    ensures forall i: nat :: multiset(s)[i] <= 1
  {
    if s != [] {
      var front, last := s[..|s| - 1], s[|s| - 1];
      IncreasingHasNoRepeats(front);
      assert s == front + [last];
      assert last !in front;
    }
  }

  lemma TwoPlacesCountTwice(s: seq<nat>, x: nat, y: nat)
    requires x < y < |s|
    ensures s[x] == s[y] ==> multiset(s)[s[x]] >= 2
  {
    assert s == s[..y] + s[y..];
    assert s[..y][x] in multiset(s[..y]) && s[y..][0] in multiset(s[y..]);
  }

  // ---- The sort itself ----

  /** Insert a candidate behind every earlier one that scores at least as high. */
  function Insert(key: seq<real>, s: seq<nat>, i: nat): seq<nat>
    requires InRange(s, |key|) && i < |key|
  {
    if s == [] then [i]
    else
      var last := s[|s| - 1];
      if key[last] >= key[i] then s + [i]
      else Insert(key, s[..|s| - 1], i) + [last]
  }

  lemma {:induction false} InsertKeepsContents(key: seq<real>, s: seq<nat>, i: nat)
    requires InRange(s, |key|) && i < |key|
    ensures multiset(Insert(key, s, i)) == multiset(s) + multiset{i}
  {
    if s != [] {
      var front, last := s[..|s| - 1], s[|s| - 1];
      assert s == front + [last];
      InsertKeepsContents(key, front, i);
      assert multiset(Insert(key, front, i) + [last]) == multiset(front) + multiset{i} + multiset{last};
    }
  }

  lemma InsertKeepsMembers(key: seq<real>, s: seq<nat>, i: nat)
    requires InRange(s, |key|) && i < |key|
    ensures InRange(Insert(key, s, i), |key|)
    ensures forall x :: 0 <= x < |Insert(key, s, i)| ==> Insert(key, s, i)[x] == i || Insert(key, s, i)[x] in s
  {
    InsertKeepsContents(key, s, i);
    var r := Insert(key, s, i);
    forall x | 0 <= x < |r| ensures r[x] < |key| && (r[x] == i || r[x] in s) {
      assert r[x] in multiset(r);
    }
  }

  lemma AppendKeepsOrder(key: seq<real>, r: seq<nat>, z: nat)
    requires InRange(r, |key|) && z < |key| && Descending(key, r) && Stable(key, r)
    requires forall x :: 0 <= x < |r| ==> key[r[x]] >= key[z] && (key[r[x]] == key[z] ==> r[x] < z)
    ensures InRange(r + [z], |key|) && Descending(key, r + [z]) && Stable(key, r + [z])
  {
  }

  lemma {:induction false} InsertKeepsOrder(key: seq<real>, s: seq<nat>, i: nat)
    requires InRange(s, |key|) && i < |key|
    requires Descending(key, s) && Stable(key, s) && InRange(s, i)
    ensures InRange(Insert(key, s, i), |key|)
    ensures Descending(key, Insert(key, s, i)) && Stable(key, Insert(key, s, i))
  {
    if s != [] {
      var front, last := s[..|s| - 1], s[|s| - 1];
      if key[last] >= key[i] {
        AppendKeepsOrder(key, s, i);
      } else {
        InsertKeepsMembers(key, front, i);
        InsertKeepsOrder(key, front, i);
        var r := Insert(key, front, i);
        forall x | 0 <= x < |r|
          ensures key[r[x]] >= key[last] && (key[r[x]] == key[last] ==> r[x] < last)
        {
          if r[x] in front {
            var y :| 0 <= y < |front| && front[y] == r[x];
            assert s[y] == r[x] && s[|s| - 1] == last;
          }
        }
        AppendKeepsOrder(key, r, last);
      }
    }
  }

  function SortByScore(key: seq<real>, cands: seq<nat>): (s: seq<nat>)
    requires InRange(cands, |key|) && Increasing(cands)
    ensures IsStableSort(key, cands, s)
  {
    if cands == [] then []
    else
      var front, last := cands[..|cands| - 1], cands[|cands| - 1];
      var r := SortByScore(key, front);
      assert InRange(r, last) by {
        SortKeepsMembers(front, r);
        forall x | 0 <= x < |r| ensures r[x] < last {
          assert r[x] in front;
        }
      }
      InsertKeepsContents(key, r, last);
      InsertKeepsOrder(key, r, last);
      assert cands == front + [last];
      Insert(key, r, last)
  }

  // ---- Monotonicity ----

  /** w' differs from w only by a later heartbeat, a higher (or first) reputation in
      0..100 and a higher stake tier. */
  ghost predicate Raised(w: Worker, w': Worker) {
    && w' == w.(heartbeat := w'.heartbeat, reputation := w'.reputation, stake := w'.stake)
    && w.heartbeat <= w'.heartbeat
    && Rank(Tier(w)) <= Rank(Tier(w'))
    && (w.reputation.Some? ==>
          w'.reputation.Some? && 0.0 <= w.reputation.value <= w'.reputation.value <= 100.0)
    && (w'.reputation.Some? ==> 0.0 <= w'.reputation.value <= 100.0)
  }

  lemma RaisedScoresHigher(w: Worker, w': Worker, c: Claim, now: int)
    requires Raised(w, w')
    ensures Score(w', c, now) >= Score(w, c, now)
  {
    assert Freshness(w'.heartbeat, now) >= Freshness(w.heartbeat, now);
    var m, m' := RepMultiplier(Tier(w)), RepMultiplier(Tier(w'));
    if w.reputation.Some? {
      var r, r' := w.reputation.value / 100.0 * 10.0, w'.reputation.value / 100.0 * 10.0;
      assert r * m <= r' * m <= r' * m';
    }
  }

  /** A worker that wins a claim still wins it after only its own standing has been raised. */
  lemma SelectionIsMonotone(ws: seq<Worker>, c: Claim, now: int, i: nat, w': Worker)
    requires Best(ws, c, now) == Some(i) && Raised(ws[i], w')
    ensures Best(ws[i := w'], c, now) == Some(i)
  {
    BestIsTheWinner(ws, c, now);
    RaisedScoresHigher(ws[i], w', c, now);
    var vs := ws[i := w'];
    forall j: nat | j < |vs| && j != i && Eligible(vs[j], c)
      ensures Before(vs, c, now, i, j)
    {
      assert Before(ws, c, now, i, j);
    }
    assert Wins(vs, c, now, i);
    BestIsTheWinner(vs, c, now);
  }

  // ---- Who cannot win ----

  /** The kind of provider a policy favours for a job type, if it favours one. */
  function Preferred(c: Claim): Option<ProviderType> {
    if c.policy == Fast then Some(Desktop) else if c.jobType == Task then Some(Seeker) else None
  }

  /** v with the standing of w. */
  function WithStandingOf(v: Worker, w: Worker): Worker {
    v.(heartbeat := w.heartbeat, reputation := w.reputation, stake := w.stake)
  }

  lemma StandingScores(v: Worker, w: Worker, c: Claim, now: int)
    requires Raised(v, WithStandingOf(v, w))
    ensures Rank(Tier(v)) < Rank(Tier(w)) ==> Score(v, c, now) < Score(WithStandingOf(v, w), c, now)
  {
    var u := v.(stake := w.stake);
    if Rank(Tier(v)) < Rank(Tier(w)) {
      var m, m' := RepMultiplier(Tier(v)), RepMultiplier(Tier(w));
      if v.reputation.Some? {
        var r := v.reputation.value / 100.0 * 10.0;
        assert r * m <= r * m';
      }
      assert Score(v, c, now) < Score(u, c, now);
      RaisedScoresHigher(u, WithStandingOf(v, w), c, now);
    }
  }

  /** A worker loses every claim for which another eligible worker has at least its
      heartbeat, reputation, stake tier and kind, if that worker registered earlier, stakes
      more, or is of the kind the policy prefers while the loser is not. */
  lemma DominatedWorkersNeverWin(ws: seq<Worker>, c: Claim, now: int, i: nat, j: nat)
    requires i < |ws| && j < |ws| && i != j && Eligible(ws[i], c)
    requires Raised(ws[j], WithStandingOf(ws[j], ws[i]))
    requires Preferred(c) == Some(ws[j].kind) ==> ws[i].kind == ws[j].kind
    requires || i < j
             || Rank(Tier(ws[j])) < Rank(Tier(ws[i]))
             || (Preferred(c) == Some(ws[i].kind) && ws[j].kind != ws[i].kind)
    ensures Best(ws, c, now) != Some(j)
  {
    var u := WithStandingOf(ws[j], ws[i]);
    RaisedScoresHigher(ws[j], u, c, now);
    StandingScores(ws[j], ws[i], c, now);
    assert Score(ws[i], c, now) - Score(u, c, now) == TypeBonus(ws[i].kind, c) - TypeBonus(ws[j].kind, c);
    assert !Before(ws, c, now, j, i);
    BestIsTheWinner(ws, c, now);
  }
}
