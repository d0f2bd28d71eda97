/** Rewards added one after the other, as a batch adds them that never fails. In binary64 the
    sum grows by a constant between two powers of two, so its exact value is known for every
    length, and with it the first length at which the raw units are wrong. */
module InOrderSums {
  import opened Protocol
  import opened Binary64
  import opened Amounts

  /** 0.001 in binary64, in units of 2^-62. */
  const REWARD_BITS := 4611686018427388.0
  const TWO62 := 4611686018427387904.0

  function InOrder(n: nat): real
    requires n > 0
  {
    Repeated(Round(JOB_REWARD), n)
  }

  /** n rewards in a row add up to s units of 2^(k - 62). */
  ghost predicate SumIs(n: nat, k: nat, s: real) {
    n > 0 && 1024.0 * InOrder(n) == Scaled(s / TWO52, k)
  }

  /** One reward in units of 2^(k - 62). */
  function UnitOf(k: nat): real {
    if k == 0 then REWARD_BITS else UnitOf(k - 1) / 2.0
  }

  // ---- One more reward ----

  lemma {:induction false} ScaledAdds(x: real, y: real, k: nat)
    ensures Scaled(x + y, k) == Scaled(x, k) + Scaled(y, k)
  {
    if k > 0 { ScaledAdds(x, y, k - 1); }
  }

  lemma RoundInUnitBinade(q: real)
    requires TWO52 <= q < TWO53
    ensures Round(q / TWO52) == RoundEven(q) as real / TWO52
  {
    assert q / TWO52 * TWO52 == q;
  }

  /** Between 2^(k - 10) and 2^(k - 9) a sum is rounded to a whole number of units of
      2^(k - 62). */
  lemma OneMore(n: nat, k: nat, s: real, r: int)
    requires SumIs(n, k, s) && TWO52 <= s + UnitOf(k) < TWO53 && RoundEven(s + UnitOf(k)) == r
    ensures SumIs(n + 1, k, r as real)
  {
    var g := UnitOf(k);
    var v, f := (s + g) / TWO52, Round(JOB_REWARD);
    RewardIsScaled(k);
    ScaledAdds(s / TWO52, g / TWO52, k);
    assert s / TWO52 + g / TWO52 == v;
    RoundInUnitBinade(s + g);
    RoundsAlike(InOrder(n) + f, v, k);
  }

  lemma RoundsAlike(x: real, v: real, k: nat)
    requires v > 0.0 && 1024.0 * x == Scaled(v, k)
    ensures 1024.0 * Round(x) == Scaled(Round(v), k)
  {
    RescaleBy(v, k);
    ScaledBy10(x);
    ScaledBy10(Round(x));
    RescaleBy(x, 10);
  }

  lemma {:induction false} ScaledShrinks(x: real, k: nat)
    ensures Scaled(x / TWO52, k) == Scaled(x, k) / TWO52
  {
    if k > 0 { ScaledShrinks(x, k - 1); }
  }

  lemma {:induction false} UnitScales(k: nat)
    ensures Scaled(UnitOf(k), k) == REWARD_BITS
  {
    if k > 0 {
      UnitScales(k - 1);
      ScaledHalves(UnitOf(k - 1), k - 1);
    }
  }

  lemma RewardIsScaled(k: nat)
    ensures 1024.0 * Round(JOB_REWARD) == Scaled(UnitOf(k) / TWO52, k)
  {
    RewardInBinary64();
    UnitScales(k);
    ScaledShrinks(UnitOf(k), k);
  }

  /** A whole number and d to the nearest round to their sum. */
  lemma RoundEvenAdds(s: int, d: int, g: real)
    requires d as real - 0.5 <= g <= d as real + 0.5
    requires g == d as real + 0.5 || g == d as real - 0.5 ==> s % 2 == 0 && d % 2 == 0
    ensures RoundEven(s as real + g) == s + d
  {
    assert (s + d) as real == s as real + d as real;
  }

  lemma OneLess(j: nat, d: int)
    requires j > 0 && d > 0
    ensures j * d == d + (j - 1) * d && (j - 1) * d >= 0
  {
  }

  /** j additions in a row between two powers of two, each of d units. */
  lemma {:induction false} Climb(n: nat, k: nat, s: int, d: int, j: nat, end: int)
    requires SumIs(n, k, s as real) && d > 0 && end == s + j * d
    requires d as real - 0.5 <= UnitOf(k) <= d as real + 0.5
    requires UnitOf(k) == d as real + 0.5 || UnitOf(k) == d as real - 0.5 ==> s % 2 == 0 && d % 2 == 0
    requires TWO52 <= s as real + UnitOf(k) && (end - d) as real + UnitOf(k) < TWO53
    ensures SumIs(n + j, k, end as real)
    decreases j
  {
    if j > 0 {
      OneLess(j, d);
      RoundEvenAdds(s, d, UnitOf(k));
      OneMore(n, k, s as real, s + d);
      Climb(n + 1, k, s + d, d, j - 1, end);
    }
  }

  /** The same sum in units twice as large. */
  lemma Coarser(n: nat, k: nat, s: real)
    requires SumIs(n, k, s)
    ensures SumIs(n, k + 1, s / 2.0)
  {
    ScaledHalves(s / TWO52, k);
  }

  lemma {:induction false} ScaledHalves(x: real, k: nat)
    ensures Scaled(x / 2.0, k + 1) == Scaled(x, k)
  {
    if k > 0 { ScaledHalves(x, k - 1); }
  }

  // ---- The sums at the powers of two ----

  lemma Units()
    ensures UnitOf(1) == 2305843009213694.0
    ensures UnitOf(2) == 1152921504606847.0
    ensures UnitOf(3) == 576460752303423.5
    ensures UnitOf(4) == 288230376151711.75
    ensures UnitOf(5) == 144115188075855.875
    ensures UnitOf(6) == 72057594037927.9375
    ensures UnitOf(7) == 36028797018963.96875
    ensures UnitOf(8) == 18014398509481.984375
    ensures UnitOf(9) == 9007199254740.9921875
    ensures UnitOf(10) == 4503599627370.49609375
    ensures UnitOf(11) == 2251799813685.248046875
    ensures UnitOf(12) == 1125899906842.6240234375
    ensures UnitOf(13) == 562949953421.31201171875
    ensures UnitOf(14) == 281474976710.656005859375
    ensures UnitOf(15) == 140737488355.3280029296875
    ensures UnitOf(16) == 70368744177.66400146484375
    ensures UnitOf(17) == 35184372088.832000732421875
  {
    assert UnitOf(1) == 2305843009213694.0;
    assert UnitOf(2) == 1152921504606847.0;
    assert UnitOf(3) == 576460752303423.5;
    assert UnitOf(4) == 288230376151711.75;
    assert UnitOf(5) == 144115188075855.875;
    assert UnitOf(6) == 72057594037927.9375;
    assert UnitOf(7) == 36028797018963.96875;
    assert UnitOf(8) == 18014398509481.984375;
    assert UnitOf(9) == 9007199254740.9921875;
    assert UnitOf(10) == 4503599627370.49609375;
    assert UnitOf(11) == 2251799813685.248046875;
    assert UnitOf(12) == 1125899906842.6240234375;
    assert UnitOf(13) == 562949953421.31201171875;
    assert UnitOf(14) == 281474976710.656005859375;
    assert UnitOf(15) == 140737488355.3280029296875;
    assert UnitOf(16) == 70368744177.66400146484375;
  }

  lemma SumOf999()
    ensures SumIs(999, 9, 8998192055486258.0)
  {
    RewardInBinary64();
    Units();
    Coarser(1, 0, 4611686018427388.0);
    Climb(1, 1, 2305843009213694, 2305843009213694, 2, 6917529027641082);
    Coarser(3, 1, 6917529027641082.0);
    Climb(3, 2, 3458764513820541, 1152921504606847, 4, 8070450532247929);
    Coarser(7, 2, 8070450532247929.0);
    OneMore(7, 3, 4035225266123964.5, 4611686018427388);
    Climb(8, 3, 4611686018427388, 576460752303424, 7, 8646911284551356);
    Coarser(15, 3, 8646911284551356.0);
    Climb(15, 4, 4323455642275678, 288230376151712, 16, 8935141660703070);
    Coarser(31, 4, 8935141660703070.0);
    Climb(31, 5, 4467570830351535, 144115188075856, 31, 8935141660703071);
    Coarser(62, 5, 8935141660703071.0);
    OneMore(62, 6, 4467570830351535.5, 4539628424389463);
    Climb(63, 6, 4539628424389463, 72057594037928, 61, 8935141660703071);
    Coarser(124, 6, 8935141660703071.0);
    OneMore(124, 7, 4467570830351535.5, 4503599627370499);
    Climb(125, 7, 4503599627370499, 36028797018964, 124, 8971170457722035);
    Coarser(249, 7, 8971170457722035.0);
    OneMore(249, 8, 4485585228861017.5, 4503599627370499);
    Climb(250, 8, 4503599627370499, 18014398509482, 249, 8989184856231517);
    Coarser(499, 8, 8989184856231517.0);
    OneMore(499, 9, 4494592428115758.5, 4503599627370499);
    Climb(500, 9, 4503599627370499, 9007199254741, 499, 8998192055486258);
  }

  lemma SumOf64001()
    ensures SumIs(64001, 16, 4503669996110560.0)
  {
    SumOf999();
    Units();
    Coarser(999, 9, 8998192055486258.0);
    Climb(999, 10, 4499096027743129, 4503599627370, 1001, 9007199254740499);
    Coarser(2000, 10, 9007199254740499.0);
    OneMore(2000, 11, 4503599627370249.5, 4505851427183935);
    Climb(2001, 11, 4505851427183935, 2251799813685, 1999, 9007199254740250);
    Coarser(4000, 11, 9007199254740250.0);
    Climb(4000, 12, 4503599627370125, 1125899906843, 3999, 9006073354835282);
    Coarser(7999, 12, 9006073354835282.0);
    Climb(7999, 13, 4503036677417641, 562949953421, 8001, 9007199254739062);
    Coarser(16000, 13, 9007199254739062.0);
    Climb(16000, 14, 4503599627369531, 281474976711, 15999, 9006917779768820);
    Coarser(31999, 14, 9006917779768820.0);
    Climb(31999, 15, 4503458889884410, 140737488355, 32001, 9007199254732765);
    Coarser(64000, 15, 9007199254732765.0);
    OneMore(64000, 16, 4503599627366382.5, 4503669996110560);
  }

  lemma SumOf127999()
    ensures SumIs(127999, 17, 4503564443007102.0)
  {
    SumOf64001();
    Units();
    Climb(64001, 16, 4503669996110560, 70368744178, 63998, 9007128886014204);
    Coarser(127999, 16, 9007128886014204.0);
  }

  // ---- Conversion to raw units ----

  lemma SumInUnits16(n: nat, s: real)
    requires SumIs(n, 16, s)
    ensures InOrder(n) == 65536.0 * s / TWO62
  {
    ScaledBy16(s / TWO52);
  }

  lemma SumInUnits17(n: nat, s: real)
    requires SumIs(n, 17, s)
    ensures InOrder(n) == 131072.0 * s / TWO62
  {
    ScaledBy16(s / TWO52);
  }

  /** A value well within half a unit of n million converts exactly. */
  lemma Converts(n: int, v: real)
    requires 1 <= n <= 190000 && -0.4999 <= v * 1000000000.0 - n as real * 1000000.0 <= 0.4999
    ensures ToUnits(v) == n * 1000000
  {
    var z, w := v * 1000000000.0, Times(v, 1000000000.0);
    RoundIsClose(z);
    assert -0.00005 <= w - z <= 0.00005;
  }

  /** From 2^37 to 2^38 raw units the product is rounded to a multiple of 2^-15. */
  lemma ProductInBinade(z: real)
    requires 137438953472.0 <= z < 274877906944.0
    ensures Round(z) == RoundEven(z * 32768.0) as real / 32768.0
  {
    var q := z * 32768.0;
    RoundInUnitBinade(q);
    RescaleBy(q / TWO52, 37);
    ScaledBy37(q / TWO52);
    ScaledBy37(Round(q / TWO52));
  }

  /** There, a value less than half a unit above n million can still be rounded up. */
  lemma ConvertsUp(n: int, v: real, up: bool)
    requires 137439 <= n <= 190000 && up == (v * 1000000000.0 - n as real * 1000000.0 > 0.4999847412109375)
    requires -0.4 <= v * 1000000000.0 - n as real * 1000000.0 < 0.5
    requires v * 1000000000.0 - n as real * 1000000.0 != 0.4999847412109375
    ensures ToUnits(v) == n * 1000000 + if up then 1 else 0
  {
    var z := v * 1000000000.0;
    ProductInBinade(z);
    var r, m := RoundEven(z * 32768.0), n * 1000000;
    assert r - m * 32768 <= 16384;
    assert up ==> r - m * 32768 == 16384;
    assert !up ==> -16384 <= r - m * 32768 <= 16383;
  }

  lemma SumsTo127999(n: nat)
    requires 64001 <= n <= 127999
    ensures ToUnits(InOrder(n)) == n * 1000000
  {
    var j := n - 64001;
    var s := 4503669996110560 + j * 70368744178;
    SumOf64001();
    Units();
    Climb(64001, 16, 4503669996110560, 70368744178, j, s);
    SumInUnits16(n, s as real);
    Converts(n, InOrder(n));
  }

  lemma SumsFrom127999(n: nat)
    requires 127999 <= n <= 180957
    ensures ToUnits(InOrder(n)) == n * 1000000 + if n == 180957 then 1 else 0
  {
    var j := n - 127999;
    var s := 4503564443007102 + j * 35184372089;
    SumOf127999();
    Units();
    Climb(127999, 17, 4503564443007102, 35184372089, j, s);
    SumInUnits17(n, s as real);
    if n < 137439 {
      Converts(n, InOrder(n));
    } else {
      ConvertsUp(n, InOrder(n), n == 180957);
    }
  }

  // ---- Trees that add one reward at a time ----

  /** Every addition adds a single payout, on either side. */
  ghost predicate OneAtATime(t: Sum) {
    match t
    case Leaf(_) => true
    case Add(l, r) => (r.Leaf? && OneAtATime(l)) || (l.Leaf? && OneAtATime(r))
  }

  lemma {:induction false} OneAtATimeIsInOrder(t: Sum)
    requires OneAtATime(t) && AllRewards(t)
    ensures Eval(t) == InOrder(|Leaves(t)|)
  {
    match t
    case Leaf(p) => assert Leaves(t)[0] == p;
    case Add(l, r) =>
      LeavesSplit(l, r);
      if r.Leaf? && OneAtATime(l) {
        OneAtATimeIsInOrder(l);
        assert Leaves(r)[0] == r.payout;
      } else {
        OneAtATimeIsInOrder(r);
        assert Leaves(l)[0] == l.payout;
      }
  }

  function Chain(p: Payout, n: nat): (t: Sum)
    requires n > 0
    ensures |Leaves(t)| == n
  {
    if n == 1 then Leaf(p) else Add(Chain(p, n - 1), Leaf(p))
  }

  lemma {:induction false} ChainIsOneAtATime(p: Payout, n: nat)
    requires n > 0 && p.amount == JOB_REWARD
    ensures OneAtATime(Chain(p, n)) && AllRewards(Chain(p, n))
  {
    if n > 1 { ChainIsOneAtATime(p, n - 1); }
  }

  /** Added one at a time, up to 180956 rewards convert to exactly a million raw units each,
      and 180957 rewards are the first to convert to one unit too many. */
  lemma InOrderConverts(n: nat)
    requires 1 <= n <= 180957
    ensures ToUnits(InOrder(n)) == n * 1000000 + if n == 180957 then 1 else 0
  {
    if n <= 67000 {
      var p := Payout(0, "", "", JOB_REWARD);
      ChainIsOneAtATime(p, n);
      OneAtATimeIsInOrder(Chain(p, n));
      RawUnitsAreExact(Chain(p, n));
    } else if n <= 127999 {
      SumsTo127999(n);
    } else {
      SumsFrom127999(n);
    }
  }

  /** The same for any sum that was built one reward at a time: by queueing, or by a retry
      that finds one new payout. */
  lemma OneAtATimeConverts(t: Sum)
    requires OneAtATime(t) && AllRewards(t) && |Leaves(t)| <= 180957
    ensures RawUnits(t) == |Leaves(t)| * 1000000 + if |Leaves(t)| == 180957 then 1 else 0
  {
    OneAtATimeIsInOrder(t);
    InOrderConverts(|Leaves(t)|);
  }
}
