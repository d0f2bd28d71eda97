/** Payouts and the sums of payouts that the distributors keep. A sum is recorded as the
    tree of additions that produced it, so that it can be read exactly and as binary64. */
module Amounts {
  import opened Protocol
  import opened Binary64

  /** One queued payout. The serial number is its position in queueing order. */
  datatype Payout = Payout(serial: nat, worker: Pubkey, jobId: JobId, amount: real)

  datatype Sum = Leaf(payout: Payout) | Add(left: Sum, right: Sum)

  function Leaves(t: Sum): (ps: seq<Payout>)
    ensures |ps| >= 1
  {
    match t
    case Leaf(p) => [p]
    case Add(l, r) => Leaves(l) + Leaves(r)
  }

  /** The value of the additions carried out in binary64, each amount first being
      rounded to a binary64 number. */
  function Eval(t: Sum): real {
    match t
    case Leaf(p) => Round(p.amount)
    case Add(l, r) => Plus(Eval(l), Eval(r))
  }

  /** x added up n times, one after the other. */
  function Repeated(x: real, n: nat): real
    requires n > 0
  {
    if n == 1 then x else Plus(Repeated(x, n - 1), x)
  }

  /** A first credit is added to zero, which leaves it as it is. */
  lemma ZeroPlusEval(t: Sum)
    ensures Plus(0.0, Eval(t)) == Eval(t)
  {
    match t
    case Leaf(p) => RoundTwice(p.amount);
    case Add(l, r) => RoundTwice(Eval(l) + Eval(r));
  }

  function Total(ps: seq<Payout>): real {
    if ps == [] then 0.0 else ps[0].amount + Total(ps[1..])
  }

  function Exact(t: Sum): real {
    match t
    case Leaf(p) => p.amount
    case Add(l, r) => Exact(l) + Exact(r)
  }

  /** The raw token units of an amount: nine decimals, computed in binary64. */
  function ToUnits(v: real): int {
    MathRound(Times(v, 1000000000.0))
  }

  function RawUnits(t: Sum): int {
    ToUnits(Eval(t))
  }

  const JOB_REWARD := 0.001

  const TRILLION := 1000000000000.0

  /** Every payout of the sum is the fixed reward for one job. */
  ghost predicate AllRewards(t: Sum) {
    forall k :: 0 <= k < |Leaves(t)| ==> Leaves(t)[k].amount == JOB_REWARD
  }

  /** v is within n * n * 0.001001 / 2^53 of n rewards. */
  predicate Near(v: real, n: real) {
    -(n * n * 0.001001) <= (v - n * JOB_REWARD) * TWO53 <= n * n * 0.001001
  }

  lemma LeavesSplit(l: Sum, r: Sum)
    requires AllRewards(Add(l, r))
    ensures AllRewards(l) && AllRewards(r)
  {
    var ps := Leaves(Add(l, r));
    forall k | 0 <= k < |Leaves(l)| ensures Leaves(l)[k].amount == JOB_REWARD {
      assert ps[k] == Leaves(l)[k];
    }
    forall k | 0 <= k < |Leaves(r)| ensures Leaves(r)[k].amount == JOB_REWARD {
      assert ps[k + |Leaves(l)|] == Leaves(r)[k];
    }
  }

  lemma ProductIsPositive(x: real, y: real)
    requires 0.0 <= x && 0.0 <= y
    ensures 0.0 <= x * y
  {
  }

  lemma Square(a: real) returns (p: real)
    requires 1.0 <= a <= TRILLION
    ensures p == a * a && 0.0 <= p <= a * TRILLION
  {
    p := a * a;
    ProductIsPositive(a, TRILLION - a);
    assert a * (TRILLION - a) == a * TRILLION - p;
  }

  lemma Products(a: real, b: real)
    requires 1.0 <= a && 1.0 <= b
    ensures a * a + b * b + (a + b) <= (a + b) * (a + b)
  {
    ProductIsPositive(a, b - 1.0);
    ProductIsPositive(b, a - 1.0);
    assert a * (b - 1.0) + b * (a - 1.0) == a * b + a * b - a - b;
    assert (a + b) * (a + b) == a * a + b * b + (a * b + a * b);
  }

  /** The error of one rounded addition; p and q bound the squares of the counts a and b,
      square is bounded by the square of their sum. */
  lemma ErrorsAddUp(a: real, b: real, p: real, q: real, x: real, y: real)
    requires 1.0 <= a && 1.0 <= b && 0.0 <= p <= a * TRILLION && 0.0 <= q <= b * TRILLION
    requires -(p * 0.001001) <= (x - a * JOB_REWARD) * TWO53 <= p * 0.001001
    requires -(q * 0.001001) <= (y - b * JOB_REWARD) * TWO53 <= q * 0.001001
    ensures 0.0 < x + y <= (a + b) * 0.001001
    ensures -((p + q) * 0.001001) <= (x + y - (a + b) * JOB_REWARD) * TWO53 <= (p + q) * 0.001001
  {
  }

  lemma RoundingFits(n: real, r: real, square: real, z: real, v: real)
    requires 0.0 < z <= n * 0.001001 && r + n <= square
    requires -(r * 0.001001) <= (z - n * JOB_REWARD) * TWO53 <= r * 0.001001
    requires -z <= (v - z) * TWO53 <= z
    ensures -(square * 0.001001) <= (v - n * JOB_REWARD) * TWO53 <= square * 0.001001
  {
  }

  /** One rounded addition of two sums that are near. */
  lemma AdditionStaysNear(a: real, b: real, x: real, y: real, v: real)
    requires 1.0 <= a && 1.0 <= b && a + b <= TRILLION
    requires Near(x, a) && Near(y, b)
    requires v == Plus(x, y)
    ensures Near(v, a + b)
  {
    var p := Square(a);
    var q := Square(b);
    ErrorsAddUp(a, b, p, q, x, y);
    RoundIsClose(x + y);
    Products(a, b);
    RoundingFits(a + b, p + q, (a + b) * (a + b), x + y, v);
  }

  /** However the additions were grouped, the error grows at most with the square of the
      number of rewards. */
  lemma {:induction false} EvalIsNear(t: Sum)
    requires AllRewards(t) && |Leaves(t)| <= 1000000000000
    ensures Near(Eval(t), |Leaves(t)| as real)
  {
    match t
    case Leaf(p) =>
      assert Leaves(t)[0].amount == JOB_REWARD;
      RoundIsClose(p.amount);
    case Add(l, r) =>
      LeavesSplit(l, r);
      EvalIsNear(l);
      EvalIsNear(r);
      AdditionStaysNear(|Leaves(l)| as real, |Leaves(r)| as real, Eval(l), Eval(r), Eval(t));
  }

  /** How far, in units of 2^-53, the raw units of n rewards can be from n million. */
  function UnitsError(n: real): real {
    (n * n + n) * 1001000.0 + TWO52
  }

  /** u raw units are the right amount for n rewards, up to rounding. */
  ghost predicate AboutRight(u: int, n: nat) {
    -UnitsError(n as real) <= (u as real - n as real * 1000000.0) * TWO53 <= UnitsError(n as real)
  }

  /** Scaling by ten to the ninth, rounding the product and taking the nearest integer. */
  lemma ScaledError(n: real, square: real, v: real, z: real, w: real, m: real)
    requires 0.0 < n && 0.0 <= square <= n * TRILLION && z == v * 1000000000.0
    requires -(square * 0.001001) <= (v - n * JOB_REWARD) * TWO53 <= square * 0.001001
    requires 0.0 < z ==> -z <= (w - z) * TWO53 <= z
    requires -0.5 <= m - w <= 0.5
    ensures -((square + n) * 1001000.0 + TWO52) <= (m - n * 1000000.0) * TWO53 <= (square + n) * 1001000.0 + TWO52
  {
    assert 0.0 < v <= n * 0.001001;
    assert 0.0 < z <= n * 1001000.0;
    assert -(square * 1001000.0) <= (z - n * 1000000.0) * TWO53 <= square * 1001000.0;
  }

  lemma MathRoundIsClose(w: real)
    ensures -0.5 <= MathRound(w) as real - w <= 0.5
  {
  }

  /** A value near n rewards converts to about n million. */
  lemma NearConverts(v: real, n: real, z: real, w: real, m: real)
    requires 1.0 <= n <= TRILLION && Near(v, n) && z == v * 1000000000.0
    requires 0.0 < z ==> -z <= (w - z) * TWO53 <= z
    requires -0.5 <= m - w <= 0.5
    ensures -UnitsError(n) <= (m - n * 1000000.0) * TWO53 <= UnitsError(n)
  {
    var square := Square(n);
    ScaledError(n, square, v, z, w, m);
  }

  /** The raw units of n rewards are within (n * n + n) * 1001000 / 2^53 + 1/2 of n million,
      however the additions were grouped. */
  lemma RawUnitsAreClose(t: Sum)
    requires AllRewards(t) && |Leaves(t)| <= 1000000000000
    ensures AboutRight(RawUnits(t), |Leaves(t)|)
  {
    EvalIsNear(t);
    var z, w := Eval(t) * 1000000000.0, Times(Eval(t), 1000000000.0);
    if 0.0 < z { RoundIsClose(z); }
    MathRoundIsClose(w);
    NearConverts(Eval(t), |Leaves(t)| as real, z, w, RawUnits(t) as real);
  }

  lemma SmallError(n: real)
    requires 1.0 <= n <= 67000.0
    ensures UnitsError(n) < TWO53
  {
    ProductIsPositive(n, 67000.0 - n);
    assert n * n <= n * 67000.0;
  }

  lemma NoError(d: int, error: real)
    requires error < TWO53 && -error <= d as real * TWO53 <= error
    ensures d == 0
  {
  }

  /** However the additions were grouped, up to 67000 rewards of 0.001 convert to exactly
      one million raw units each. */
  lemma RawUnitsAreExact(t: Sum)
    requires AllRewards(t) && |Leaves(t)| <= 67000
    ensures RawUnits(t) == |Leaves(t)| * 1000000
  {
    var n := |Leaves(t)|;
    RawUnitsAreClose(t);
    SmallError(n as real);
    NoError(RawUnits(t) - n * 1000000, UnitsError(n as real));
  }

  /** 0.001 as a binary64 number, 4611686018427388 / 2^62. */
  lemma RewardInBinary64()
    ensures Round(JOB_REWARD) == 4611686018427388.0 / (TWO52 * 1024.0)
  {
    RescaleBy(JOB_REWARD, 10);
    ScaledBy10(JOB_REWARD);
    ScaledBy10(Round(JOB_REWARD));
    assert RoundEven(1.024 * TWO52) == 4611686018427388;
  }

  lemma {:induction false} TotalOfConcat(ps: seq<Payout>, qs: seq<Payout>)
    ensures Total(ps + qs) == Total(ps) + Total(qs)
  {
    if ps == [] {
      assert ps + qs == qs;
    } else {
      assert (ps + qs)[1..] == ps[1..] + qs;
      TotalOfConcat(ps[1..], qs);
    }
  }

  /** The exact reading of a sum is the total of its leaves. */
  lemma {:induction false} ExactIsTotal(t: Sum)
    ensures Exact(t) == Total(Leaves(t))
  {
    match t
    case Leaf(p) =>
    case Add(l, r) =>
      ExactIsTotal(l);
      ExactIsTotal(r);
      TotalOfConcat(Leaves(l), Leaves(r));
  }
}
