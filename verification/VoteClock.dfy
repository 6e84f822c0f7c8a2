/** What a staked unit is worth in votes at a time: it doubles every 52 weeks, a week at a time. */
module VoteClock {

  /** `block_timestamp_epoch`, the first second of the year 2000. */
  const EPOCH: int := 946_684_800
  const SECONDS_PER_WEEK: int := 7 * 24 * 3600

  /** Whole weeks since the epoch; times are microseconds. */
  function Weeks(now: int): int {
    (now / 1_000_000 - EPOCH) / SECONDS_PER_WEEK
  }

  function Power(x: real, n: nat): real {
    if n == 0 then 1.0 else x * Power(x, n - 1)
  }

  /** Whether `stake2vote` multiplies by this factor at that time: two to the power of weeks by 52. */
  predicate IsFactor(now: int, factor: real) {
    Weeks(now) >= 0 && factor > 0.0 && Power(factor, 52) == Power(2.0, Weeks(now))
  }

  lemma {:induction false} PowerPositive(x: real, n: nat)
    requires x > 0.0
    ensures Power(x, n) > 0.0
    ensures x >= 1.0 ==> Power(x, n) >= 1.0
  {
    if n > 0 {
      PowerPositive(x, n - 1);
    }
  }

  lemma SmallPowers(x: real)
    ensures Power(x, 1) == x && Power(x, 2) == x * x
  {
    assert Power(x, 0) == 1.0;
    assert Power(x, 1) == x * Power(x, 0);
  }

  lemma {:induction false} PowerIncreases(x: real, y: real, n: nat)
    requires 0.0 < x < y && n > 0
    ensures Power(x, n) < Power(y, n)
  {
    if n == 1 {
      SmallPowers(x);
      SmallPowers(y);
    } else {
      PowerIncreases(x, y, n - 1);
      PowerPositive(x, n - 1);
      ProductIncreases(x, y, Power(x, n - 1), Power(y, n - 1));
    }
  }

  lemma ProductIncreases(x: real, y: real, a: real, b: real)
    requires 0.0 < x < y && 0.0 < a < b
    ensures x * a < y * b
  {
    assert x * a < y * a;
    assert y * a < y * b;
  }

  /** Powers with the same exponent are equal only for equal bases. */
  lemma RootUnique(x: real, y: real, n: nat)
    requires x > 0.0 && y > 0.0 && n > 0 && Power(x, n) == Power(y, n)
    ensures x == y
  {
    if x < y {
      PowerIncreases(x, y, n);
    } else if y < x {
      PowerIncreases(y, x, n);
    }
  }

  lemma {:induction false} PowerAdds(x: real, m: nat, n: nat)
    ensures Power(x, m + n) == Power(x, m) * Power(x, n)
  {
    if m > 0 {
      PowerAdds(x, m - 1, n);
      assert x * (Power(x, m - 1) * Power(x, n)) == (x * Power(x, m - 1)) * Power(x, n);
    }
  }

  lemma {:induction false} PowerOfPower(x: real, m: nat, n: nat)
    ensures Power(x, m * n) == Power(Power(x, m), n)
  {
    if n > 0 {
      PowerOfPower(x, m, n - 1);
      assert m * n == m + m * (n - 1);
      PowerAdds(x, m, m * (n - 1));
    } else {
      assert m * n == 0;
    }
  }

  lemma FactorAtLeastOne(now: int, factor: real)
    requires IsFactor(now, factor)
    ensures factor >= 1.0 && now > 0
  {
    PowerPositive(2.0, Weeks(now));
    if factor < 1.0 {
      PowerIncreases(factor, 1.0, 52);
      PowerOfOne(52);
    }
  }

  lemma {:induction false} PowerOfOne(n: nat)
    ensures Power(1.0, n) == 1.0
  {
    if n > 0 {
      PowerOfOne(n - 1);
    }
  }

  /** A factor that is some power of two, or a root of one. */
  lemma FactorRoot(now: int, factor: real, root: nat, times: nat, exponent: nat)
    requires IsFactor(now, factor) && root * times == 52 && times > 0 && Weeks(now) == exponent * times
    ensures Power(factor, root) == Power(2.0, exponent)
  {
    PowerOfPower(factor, root, times);
    PowerOfPower(2.0, exponent, times);
    PowerPositive(factor, root);
    PowerPositive(2.0, exponent);
    RootUnique(Power(factor, root), Power(2.0, exponent), times);
  }

  lemma PowersOfTwo()
    ensures Power(2.0, 19) == 524_288.0 && Power(2.0, 39) == 549_755_813_888.0
  {
    hide Power;
    SmallPowers(2.0);
    PowerAdds(2.0, 2, 2);
    PowerAdds(2.0, 4, 4);
    PowerAdds(2.0, 8, 8);
    PowerAdds(2.0, 16, 2);
    PowerAdds(2.0, 18, 1);
    PowerAdds(2.0, 19, 19);
    PowerAdds(2.0, 38, 1);
  }

  /** After nineteen years of 52 weeks, and half a year later. */
  lemma LaterFactors(now: int, factor: real, later: int, grown: real)
    requires IsFactor(now, factor) && Weeks(now) == 19 * 52
    requires IsFactor(later, grown) && Weeks(later) == 39 * 26
    ensures factor == 524_288.0 && grown * grown == 549_755_813_888.0
  {
    hide Power;
    FactorRoot(now, factor, 1, 52, 19);
    FactorRoot(later, grown, 2, 26, 39);
    PowersOfTwo();
    SmallPowers(factor);
    SmallPowers(grown);
  }
}
