/**
 The arithmetic of the RAM market: a relay between RAM and the core token in two hops through the
 intermediate token RAMCORE, both connectors having weight one half. Raising to the power one half
 is the square root, to the power two the square; each hop truncates its result to an integer.
 Real-number intermediate values are exact here, where the contract rounds to doubles.
 */
module RamMath {

  /** The integer square root. */
  function Root(n: nat): (r: nat)
    ensures r * r <= n < (r + 1) * (r + 1)
  {
    if n == 0 then 0
    else
      var r := Root(n - 1);
      if (r + 1) * (r + 1) <= n then r + 1 else r
  }

  lemma Scale(c: int, a: int, b: int)
    requires c >= 0 && a <= b
    ensures a * c <= b * c
  {
    assert (b - a) * c >= 0;
  }

  lemma Squares(a: nat, b: nat)
    requires a <= b
    ensures a * a <= b * b
  {
    Scale(a, a, b);
    Scale(b, a, b);
  }

  lemma CancelLess(r: int, a: int, b: int)
    requires r >= 0 && a * r < b * r
    ensures a < b
  {
    assert a >= b ==> a * r >= b * r by {
      if a >= b {
        Scale(r, b, a);
      }
    }
  }

  lemma CancelLeq(r: int, a: int, b: int)
    requires r > 0 && a * r <= b * r
    ensures a <= b
  {
    assert (b + 1) * r == b * r + r;
    CancelLess(r, a, b + 1);
  }

  lemma CancelSquares(a: nat, b: nat)
    requires a * a < b * b
    ensures a < b
  {
    assert a >= b ==> a * a >= b * b by {
      if a >= b {
        Squares(b, a);
      }
    }
  }

  lemma DivBounds(n: int, d: int)
    requires d > 0
    ensures n / d * d <= n < (n / d + 1) * d
  {
  }

  /** Dividing is the largest multiple that fits. */
  lemma DivLargest(n: int, d: int, q: int)
    requires d > 0 && q * d <= n
    ensures q <= n / d
  {
    DivBounds(n, d);
    CancelLess(d, q, n / d + 1);
  }

  /** RAMCORE issued for paying `paid` into a connector holding `held`, the supply being `supply`. */
  function Issued(supply: nat, held: nat, paid: nat): int
    requires held + paid > 0
  {
    Root(supply * supply * (held + 2 * paid) / (held + paid)) - supply
  }

  /** The truncated real-number formula, cleared of the square root. */
  lemma IssuedExact(supply: nat, held: nat, paid: nat)
    requires held + paid > 0
    ensures var x := supply + Issued(supply, held, paid);
            && x >= supply
            && x * x * (held + paid) <= supply * supply * (held + 2 * paid)
            && supply * supply * (held + 2 * paid) < (x + 1) * (x + 1) * (held + paid)
  {
    var n := supply * supply * (held + 2 * paid);
    ScaledSquare(supply, held, paid);
    RootOfRatio(n, held + paid);
    RatioAbove(n, held + paid, supply);
  }

  lemma IssuedNonNegative(supply: nat, held: nat, paid: nat)
    requires held + paid > 0
    ensures Issued(supply, held, paid) >= 0
  {
    IssuedExact(supply, held, paid);
  }

  lemma RatioAbove(n: nat, d: nat, s: nat)
    requires d > 0 && s * s * d <= n
    ensures s <= Root(n / d)
  {
    DivLargest(n, d, s * s);
    CancelSquares(s, Root(n / d) + 1);
  }

  lemma ScaledSquare(supply: nat, held: nat, paid: nat)
    ensures 0 <= supply * supply * (held + paid) <= supply * supply * (held + 2 * paid)
  {
    Scale(supply * supply, held + paid, held + 2 * paid);
    Scale(supply * supply, 0, held + paid);
  }

  /** Rooting a truncated ratio is rooting the ratio. */
  lemma RootOfRatio(n: nat, d: nat)
    requires d > 0
    ensures var x := Root(n / d); x * x * d <= n < (x + 1) * (x + 1) * d
  {
    var x := Root(n / d);
    DivBounds(n, d);
    Scale(d, x * x, n / d);
    Scale(d, n / d + 1, (x + 1) * (x + 1));
  }

  /** What a connector holding `held` pays for retiring `retired` RAMCORE, `rest` staying in supply. */
  function Redeemed(rest: nat, held: nat, retired: nat): int
    requires rest > 0
  {
    held * ((rest + retired) * (rest + retired) - rest * rest) / (rest * rest)
  }

  /** Both hops: pay `paid` into the connector holding `from`, be paid out of the one holding `to`. */
  function Traded(supply: nat, from: nat, to: nat, paid: nat): int
    requires supply > 0 && from + paid > 0
  {
    IssuedExact(supply, from, paid);
    Redeemed(supply, to, Issued(supply, from, paid))
  }

  /** Whether a payment brings the RAMCORE supply up to `x`. */
  predicate Affords(supply: nat, from: nat, paid: nat, x: nat) {
    supply <= x && x * x * (from + paid) <= supply * supply * (from + 2 * paid)
  }

  /** Whether retiring again what the supply grew by to `x` redeems `goal`. */
  predicate Yields(supply: nat, to: nat, goal: nat, x: nat) {
    goal * (supply * supply) <= to * (x * x - supply * supply)
  }

  /** Whether some amount of RAMCORE can be afforded that yields the goal: no root, no quotient. */
  ghost predicate Reaches(supply: nat, from: nat, to: nat, paid: nat, goal: nat) {
    exists x: nat :: Affords(supply, from, paid, x) && Yields(supply, to, goal, x)
  }

  /** Exactly what a trade pays, rounding of both hops included. */
  lemma TradedReaches(supply: nat, from: nat, to: nat, paid: nat, goal: nat)
    requires supply > 0 && from + paid > 0
    ensures Traded(supply, from, to, paid) >= goal <==> Reaches(supply, from, to, paid, goal)
  {
    IssuedExact(supply, from, paid);
    var x := supply + Issued(supply, from, paid);
    YieldsIff(supply, to, goal, x);
    assert Affords(supply, from, paid, x);
    if Reaches(supply, from, to, paid, goal) {
      var y: nat :| Affords(supply, from, paid, y) && Yields(supply, to, goal, y);
      IssuedLargest(supply, from, paid, x, y);
      YieldsMore(supply, to, goal, y, x);
    }
  }

  lemma IssuedLargest(supply: nat, from: nat, paid: nat, x: nat, y: nat)
    requires from + paid > 0 && Affords(supply, from, paid, y)
    requires supply * supply * (from + 2 * paid) < (x + 1) * (x + 1) * (from + paid)
    ensures y <= x
  {
    CancelLess(from + paid, y * y, (x + 1) * (x + 1));
    CancelSquares(y, x + 1);
  }

  lemma YieldsIff(supply: nat, to: nat, goal: nat, x: nat)
    requires supply > 0 && supply <= x
    ensures Redeemed(supply, to, x - supply) >= goal <==> Yields(supply, to, goal, x)
  {
    var rr, n := supply * supply, to * (x * x - supply * supply);
    Squares(1, supply);
    if Yields(supply, to, goal, x) {
      DivLargest(n, rr, goal);
    }
    if n / rr >= goal {
      DivBounds(n, rr);
      Scale(rr, goal, n / rr);
    }
  }

  lemma YieldsMore(supply: nat, to: nat, goal: nat, x: nat, y: nat)
    requires x <= y && Yields(supply, to, goal, x)
    ensures Yields(supply, to, goal, y)
  {
    Squares(x, y);
    Scale(to, x * x - supply * supply, y * y - supply * supply);
  }

  /** Never more than the constant-product formula pays. */
  lemma TradedAtMost(supply: nat, from: nat, to: nat, paid: nat)
    requires supply > 0 && from + paid > 0
    ensures 0 <= Traded(supply, from, to, paid)
    ensures Traded(supply, from, to, paid) * (from + paid) <= to * paid
    ensures Traded(supply, from, to, paid) <= to * paid / (from + paid)
  {
    IssuedExact(supply, from, paid);
    var x := supply + Issued(supply, from, paid);
    GainBound(supply * supply, x * x, from, paid);
    Squares(supply, x);
    Squares(1, supply);
    RedeemBound(supply * supply, from + paid, x * x - supply * supply, to, paid);
  }

  lemma RedeemBound(rr: nat, d: nat, gain: nat, to: nat, paid: nat)
    requires rr > 0 && d > 0 && gain * d <= rr * paid
    ensures 0 <= to * gain / rr && to * gain / rr * d <= to * paid && to * gain / rr <= to * paid / d
  {
    Scale(to, 0, gain);
    DivLargest(to * gain, rr, 0);
    DivBounds(to * gain, rr);
    OutBound(rr, d, gain, to, paid, to * gain / rr);
    DivLargest(to * paid, d, to * gain / rr);
  }

  lemma GainBound(rr: nat, xx: nat, from: nat, paid: nat)
    requires xx * (from + paid) <= rr * (from + 2 * paid)
    ensures (xx - rr) * (from + paid) <= rr * paid
  {
  }

  lemma OutBound(rr: nat, d: nat, gain: int, to: nat, paid: nat, out: int)
    requires rr > 0 && gain * d <= rr * paid && out * rr <= to * gain
    ensures out * d <= to * paid
  {
    calc {
      out * d * rr;
      out * rr * d;
    <= { Scale(d, out * rr, to * gain); }
      to * gain * d;
      gain * d * to;
    <= { Scale(to, gain * d, rr * paid); }
      rr * paid * to;
      to * paid * rr;
    }
    CancelLeq(rr, out * d, to * paid);
  }

  /** A root grows by less than half. */
  lemma IssuedUnderHalf(supply: nat, held: nat, paid: nat)
    requires supply > 0 && held + paid > 0
    ensures 2 * Issued(supply, held, paid) < supply
  {
    IssuedExact(supply, held, paid);
    var x := supply + Issued(supply, held, paid);
    AtMostDoubled(supply * supply, x * x, held, paid);
    DoubledSquare(supply, x);
  }

  lemma DoubledSquare(s: nat, x: nat)
    requires s > 0 && x * x <= 2 * (s * s)
    ensures 2 * x < 3 * s
  {
    assert (2 * x) * (2 * x) == 4 * (x * x);
    assert (3 * s) * (3 * s) == 9 * (s * s);
    Squares(1, s);
    CancelSquares(2 * x, 3 * s);
  }

  lemma AtMostDoubled(rr: nat, xx: nat, held: nat, paid: nat)
    requires held + paid > 0
    requires xx * (held + paid) <= rr * (held + 2 * paid)
    ensures xx <= 2 * rr
  {
    Scale(rr, held + 2 * paid, 2 * (held + paid));
    assert 2 * (held + paid) * rr == 2 * rr * (held + paid);
    CancelLeq(held + paid, xx, 2 * rr);
  }

  /** ... and, while the connector is at most a third of the supply, at most one unit less. */
  lemma TradedAtLeast(supply: nat, from: nat, to: nat, paid: nat)
    requires supply > 0 && from + paid > 0
    requires 3 * to <= supply
    ensures to * paid / (from + paid) <= Traded(supply, from, to, paid) + 1
  {
    IssuedExact(supply, from, paid);
    IssuedUnderHalf(supply, from, paid);
    var x := supply + Issued(supply, from, paid);
    Squares(1, supply);
    DivBounds(to * (x * x - supply * supply), supply * supply);
    assert (x + 1) * (x + 1) == x * x + (2 * x + 1);
    GainFloor(supply * supply, x * x + (2 * x + 1), from, paid);
    SlackSmall(supply, to, 2 * x + 1);
    OutFloor(supply * supply, from + paid, x * x - supply * supply, 2 * x + 1, to, paid, Traded(supply, from, to, paid));
    DivBounds(to * paid, from + paid);
    CancelLess(from + paid, to * paid / (from + paid), Traded(supply, from, to, paid) + 2);
  }

  /** One unit of RAMCORE is worth at most one unit of the connector. */
  lemma SlackSmall(supply: nat, to: nat, slack: nat)
    requires 3 * to <= supply && slack <= 3 * supply
    ensures slack * to <= supply * supply
  {
    Scale(to, slack, 3 * supply);
    Scale(supply, 3 * to, supply);
    assert 3 * supply * to == 3 * to * supply;
  }

  lemma GainFloor(rr: nat, xx: nat, from: nat, paid: nat)
    requires rr * (from + 2 * paid) < xx * (from + paid)
    ensures rr * paid < (xx - rr) * (from + paid)
  {
  }

  lemma OutFloor(rr: nat, d: nat, gain: int, slack: int, to: nat, paid: nat, out: int)
    requires rr > 0 && d > 0
    requires rr * paid < (gain + slack) * d
    requires to * gain < (out + 1) * rr && slack * to <= rr
    ensures to * paid < (out + 2) * d
  {
    calc {
      to * paid * rr;
      rr * paid * to;
    <= { Scale(to, rr * paid, (gain + slack) * d); }
      (gain + slack) * d * to;
      (to * gain + slack * to) * d;
    < { CancelStrict(d, to * gain + slack * to, (out + 2) * rr); }
      (out + 2) * rr * d;
      (out + 2) * d * rr;
    }
    CancelLess(rr, to * paid, (out + 2) * d);
  }

  lemma CancelStrict(c: int, a: int, b: int)
    requires c > 0 && a < b
    ensures a * c < b * c
  {
    Scale(c, a + 1, b);
    assert (a + 1) * c == a * c + c;
  }

  /** A trade never decreases the product of the two connectors. */
  lemma ProductGrows(supply: nat, from: nat, to: nat, paid: nat)
    requires supply > 0 && from + paid > 0
    ensures Traded(supply, from, to, paid) <= to
    ensures from * to <= (from + paid) * (to - Traded(supply, from, to, paid))
  {
    TradedAtMost(supply, from, to, paid);
    ProductAlgebra(from, to, paid, Traded(supply, from, to, paid));
  }

  lemma ProductAlgebra(from: nat, to: nat, paid: nat, out: int)
    requires from + paid > 0 && out * (from + paid) <= to * paid
    ensures out <= to && from * to <= (from + paid) * (to - out)
  {
    Scale(to, paid, from + paid);
    assert paid * to == to * paid && (from + paid) * to == to * (from + paid);
    CancelLeq(from + paid, out, to);
    assert (from + paid) * (to - out) == from * to + to * paid - out * (from + paid);
  }

  /** Selling back all that was bought returns no more than was paid. */
  lemma RoundTripLoses(supply: nat, quote: nat, base: nat, paid: nat)
    requires supply > 0 && quote + paid > 0 && base > 0
    ensures var out := Traded(supply, quote, base, paid);
            0 <= out <= base && Traded(supply, base - out, quote + paid, out) <= paid
  {
    ProductGrows(supply, quote, base, paid);
    TradedAtMost(supply, quote, base, paid);
    var out := Traded(supply, quote, base, paid);
    TradedAtMost(supply, base - out, quote + paid, out);
    RoundTripAlgebra(quote, base, paid, out, Traded(supply, base - out, quote + paid, out));
  }

  lemma RoundTripAlgebra(quote: nat, base: nat, paid: nat, out: int, back: int)
    requires base > 0 && out * (quote + paid) <= base * paid
    requires back * (base - out + out) <= (quote + paid) * out
    ensures back <= paid
  {
    assert (quote + paid) * out == out * (quote + paid) && base * paid == paid * base;
    CancelLeq(base, back, paid);
  }

  /** The RAMCORE supply, constant between trades. */
  const RAMCORE_SUPPLY: nat := 100_000_000_000_000

  /** The contract's supply makes the root irrational, so a trade never empties a connector. */
  lemma NeverEmptied(from: nat, to: nat, paid: nat)
    requires from + paid > 0 && to > 0
    ensures Traded(RAMCORE_SUPPLY, from, to, paid) < to
  {
    var s := RAMCORE_SUPPLY;
    IssuedExact(s, from, paid);
    var x := s + Issued(s, from, paid);
    AtMostDoubled(s * s, x * x, from, paid);
    CancelSquares(x, 141_421_356_237_310);
    Squares(x, 141_421_356_237_309);
    var gain := x * x - s * s;
    CancelStrict(to, gain, s * s);
    assert gain * to == to * gain && s * s * to == to * (s * s);
    DivBounds(to * gain, s * s);
    CancelLess(s * s, to * gain / (s * s), to);
  }
}
