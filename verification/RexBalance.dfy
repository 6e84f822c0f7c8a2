/**
 One account's REX: what may be sold, and what matures later, in a deque of buckets by the day it
 matures, the savings bucket, which never does, being last.
 */
module RexBalance {
  import opened Basics

  datatype Bucket = Bucket(maturity: int, amount: int)

  datatype Balance = Balance(
    voteStake: int,        // vote_stake
    rex: int,              // rex_balance
    matured: int,          // matured_rex
    buckets: seq<Bucket>)  // rex_maturities

  /** Seconds. */
  const DAY: int := 24 * 3600
  const END_OF_DAYS: int := 0xFFFF_FFFF

  /** The end of the fourth day after today. */
  function Maturity(sec: int): int {
    sec - sec % DAY + 5 * DAY
  }

  predicate HasSavings(b: Balance) {
    b.buckets != [] && b.buckets[|b.buckets| - 1].maturity == END_OF_DAYS
  }

  /** `read_rex_savings`: what it returns. */
  function Savings(b: Balance): int {
    if HasSavings(b) then b.buckets[|b.buckets| - 1].amount else 0
  }

  /** `read_rex_savings`: what it leaves. */
  function WithoutSavings(b: Balance): Balance {
    if HasSavings(b) then b.(buckets := b.buckets[..|b.buckets| - 1]) else b
  }

  /** Adds to the last bucket, or opens a new last one. */
  function PutInto(b: Balance, maturity: int, amount: int): Balance {
    var n := |b.buckets|;
    if n > 0 && b.buckets[n - 1].maturity == maturity then
      b.(buckets := b.buckets[n - 1 := Bucket(maturity, b.buckets[n - 1].amount + amount)])
    else b.(buckets := b.buckets + [Bucket(maturity, amount)])
  }

  /** `put_rex_savings`. */
  function PutSavings(b: Balance, amount: int): Balance {
    if amount == 0 then b else PutInto(b, END_OF_DAYS, amount)
  }

  /** `process_rex_maturities`. */
  function Mature(b: Balance, sec: int): Balance
    decreases |b.buckets|
  {
    if b.buckets != [] && b.buckets[0].maturity <= sec then
      Mature(b.(matured := b.matured + b.buckets[0].amount, buckets := b.buckets[1..]), sec)
    else b
  }

  /** The part of `add_to_rex_balance` after the totals: a purchase goes into today's bucket. */
  function AddPurchase(b: Balance, amount: int, sec: int): Balance {
    PutSavings(PutInto(Mature(WithoutSavings(b), sec), Maturity(sec), amount), Savings(b))
  }

  /** The loop of `mvtosavings`: what is left of the buckets, and what they could not provide. */
  function TakeBack(buckets: seq<Bucket>, amount: int): (seq<Bucket>, int)
    decreases |buckets|
  {
    if buckets == [] || amount <= 0 then (buckets, amount)
    else
      var last := buckets[|buckets| - 1];
      var taken := Min(amount, last.amount);
      if last.amount == taken then TakeBack(buckets[..|buckets| - 1], amount - taken)
      else (buckets[|buckets| - 1 := last.(amount := last.amount - taken)], amount - taken)
  }

  function MoveToSavings(b: Balance, amount: int, inOrder: int, sec: int): Result<Balance> {
    var savings := Savings(b);
    var _ :- Need(amount + inOrder + savings <= b.rex, Rejected);
    var m := Mature(WithoutSavings(b), sec);
    var (buckets, rest) := TakeBack(m.buckets, amount);
    var _ :- Need(rest >= 0, Broken);
    var _ :- Need(rest <= 0 || inOrder <= m.matured - rest, Broken);
    Ok(PutSavings(m.(buckets := buckets, matured := m.matured - rest), savings + amount))
  }

  function MoveFromSavings(b: Balance, amount: int, sec: int): Result<Balance> {
    var savings := Savings(b);
    var _ :- Need(amount <= savings, Rejected);
    Ok(PutSavings(PutInto(Mature(WithoutSavings(b), sec), Maturity(sec), amount), savings - amount))
  }

  function Total(buckets: seq<Bucket>): int {
    if buckets == [] then 0 else buckets[0].amount + Total(buckets[1..])
  }

  /** `consolidate_rex_balance`. */
  function Consolidate(b: Balance, inOrder: int, sec: int): Balance {
    var total := b.matured - inOrder + Total(WithoutSavings(b).buckets);
    PutSavings(b.(matured := inOrder, buckets := if total > 0 then [Bucket(Maturity(sec), total)] else []),
               Savings(b))
  }

  // ---------------------------------------------------------------------------------------------
  // A balance is soundly partitioned.

  /** Buckets of whole days, none later than a purchase made now, all within five days. */
  predicate Days(ds: seq<Bucket>, sec: int) {
    && (forall i :: 0 <= i < |ds| ==> ds[i].maturity % DAY == 0 && ds[i].maturity <= Maturity(sec) && ds[i].amount >= 0)
    && (forall i, j :: 0 <= i < j < |ds| ==> ds[i].maturity < ds[j].maturity)
    && (ds != [] ==> ds[|ds| - 1].maturity - ds[0].maturity <= 4 * DAY)
  }

  predicate Partitioned(b: Balance, sec: int) {
    && 0 <= b.voteStake && 0 <= b.matured && 0 <= Savings(b)
    && b.rex == b.matured + Total(b.buckets)
    && Days(WithoutSavings(b).buckets, sec)
  }

  /** What the buckets hold that matures by a given time. */
  function Maturing(buckets: seq<Bucket>, due: int): int {
    if buckets == [] then 0
    else (if buckets[0].maturity <= due then buckets[0].amount else 0) + Maturing(buckets[1..], due)
  }

  /** All that could be sold by a given time. */
  function Sellable(b: Balance, due: int): int {
    b.matured + Maturing(b.buckets, due)
  }

  /** At most five day buckets, and one savings bucket. */
  lemma AtMostSixBuckets(b: Balance, sec: int)
    requires Partitioned(b, sec)
    ensures |WithoutSavings(b).buckets| <= 5 && |b.buckets| <= 6
    ensures Maturity(sec) < END_OF_DAYS ==>
      forall i, j :: 0 <= i < j < |b.buckets| ==> b.buckets[i].maturity < b.buckets[j].maturity
  {
    var ds := WithoutSavings(b).buckets;
    if ds != [] {
      Spread(ds, sec, |ds| - 1);
    }
  }

  lemma {:induction false} Spread(ds: seq<Bucket>, sec: int, i: nat)
    requires Days(ds, sec) && i < |ds|
    ensures ds[i].maturity >= ds[0].maturity + i * DAY
  {
    if i > 0 {
      Spread(ds, sec, i - 1);
      Multiples(ds[i - 1].maturity, ds[i].maturity);
    }
  }

  lemma Multiples(a: int, b: int)
    requires a % DAY == 0 && b % DAY == 0 && a < b
    ensures a + DAY <= b
  {
  }

  lemma MaturityGrows(t: int, u: int)
    requires t <= u
    ensures Maturity(t) <= Maturity(u) && Maturity(t) % DAY == 0 && t + 4 * DAY < Maturity(t) <= t + 5 * DAY
  {
    assert t / DAY <= u / DAY;
    assert Maturity(t) == (t / DAY + 5) * DAY && Maturity(u) == (u / DAY + 5) * DAY;
  }

  // ---------------------------------------------------------------------------------------------
  // Sums over the deque.

  lemma {:induction false} TotalAppend(a: seq<Bucket>, b: seq<Bucket>)
    ensures Total(a + b) == Total(a) + Total(b)
    decreases |a|
  {
    if a == [] {
      assert a + b == b;
    } else {
      assert (a + b)[1..] == a[1..] + b;
      TotalAppend(a[1..], b);
    }
  }

  lemma {:induction false} MaturingAppend(a: seq<Bucket>, b: seq<Bucket>, due: int)
    ensures Maturing(a + b, due) == Maturing(a, due) + Maturing(b, due)
    decreases |a|
  {
    if a == [] {
      assert a + b == b;
    } else {
      assert (a + b)[1..] == a[1..] + b;
      MaturingAppend(a[1..], b, due);
    }
  }

  /** Taking the last bucket off both sums. */
  lemma LastApart(buckets: seq<Bucket>, due: int)
    requires buckets != []
    ensures var n := |buckets| - 1;
            && Total(buckets) == Total(buckets[..n]) + buckets[n].amount
            && Maturing(buckets, due) == Maturing(buckets[..n], due) + (if buckets[n].maturity <= due then buckets[n].amount else 0)
  {
    var n := |buckets| - 1;
    var last := [buckets[n]];
    assert buckets == buckets[..n] + last;
    TotalAppend(buckets[..n], last);
    MaturingAppend(buckets[..n], last, due);
    assert last[1..] == [];
  }

  lemma {:induction false} MaturingBounds(buckets: seq<Bucket>, due: int)
    requires forall i :: 0 <= i < |buckets| ==> buckets[i].amount >= 0
    ensures 0 <= Maturing(buckets, due) <= Total(buckets)
    decreases |buckets|
  {
    if buckets != [] {
      MaturingBounds(buckets[1..], due);
    }
  }

  /** The parts of a partitioned balance. */
  lemma Parts(b: Balance, sec: int, due: int)
    requires Partitioned(b, sec)
    ensures var ds := WithoutSavings(b).buckets;
            && b.rex == b.matured + Total(ds) + Savings(b)
            && 0 <= Total(ds) && 0 <= Maturing(ds, due) <= Total(ds)
            && (due < END_OF_DAYS ==> Sellable(b, due) == b.matured + Maturing(ds, due) <= b.rex)
  {
    MaturingBounds(WithoutSavings(b).buckets, due);
    if HasSavings(b) {
      LastApart(b.buckets, due);
    }
  }

  // ---------------------------------------------------------------------------------------------
  // What each operation does to the partition, and to what can be sold by when.

  /** Buckets of days ahead only, as they are once matured ones are gone. */
  predicate Ahead(ds: seq<Bucket>, sec: int) {
    Days(ds, sec) && forall i :: 0 <= i < |ds| ==> sec < ds[i].maturity
  }

  lemma {:induction false} MatureKeeps(b: Balance, sec: int, due: int)
    requires Days(b.buckets, sec) && 0 <= b.matured && sec <= due
    ensures var m := Mature(b, sec);
            && m.voteStake == b.voteStake && m.rex == b.rex
            && b.matured <= m.matured
            && Ahead(m.buckets, sec)
            && m.matured + Total(m.buckets) == b.matured + Total(b.buckets)
            && Sellable(m, due) == Sellable(b, due)
    decreases |b.buckets|
  {
    hide Maturity;
    if b.buckets != [] {
      if b.buckets[0].maturity <= sec {
        hide Days;
        DaysTail(b.buckets, sec);
        MatureKeeps(b.(matured := b.matured + b.buckets[0].amount, buckets := b.buckets[1..]), sec, due);
      } else {
        assert forall i :: 0 <= i < |b.buckets| ==> b.buckets[0].maturity <= b.buckets[i].maturity;
      }
    }
  }

  /** Whichever bucket an amount goes into, it adds to both sums. */
  lemma PutIntoAdds(b: Balance, maturity: int, amount: int, due: int)
    ensures var p := PutInto(b, maturity, amount);
            && p == b.(buckets := p.buckets)
            && Total(p.buckets) == Total(b.buckets) + amount
            && Maturing(p.buckets, due) == Maturing(b.buckets, due) + (if maturity <= due then amount else 0)
  {
    hide Total, Maturing;
    var p := PutInto(b, maturity, amount);
    LastApart(p.buckets, due);
    if |p.buckets| == |b.buckets| {
      LastApart(b.buckets, due);
      assert p.buckets[..|p.buckets| - 1] == b.buckets[..|b.buckets| - 1];
    } else {
      assert p.buckets[..|p.buckets| - 1] == b.buckets;
    }
  }

  lemma DaysTail(ds: seq<Bucket>, sec: int)
    requires Days(ds, sec) && ds != []
    ensures Days(ds[1..], sec) && ds[0].amount >= 0
  {
  }

  /** Today's bucket can be added to what lies ahead. */
  lemma PutTodayKeeps(b: Balance, amount: int, sec: int, due: int)
    requires Ahead(b.buckets, sec) && 0 <= amount
    ensures var p := PutInto(b, Maturity(sec), amount);
            && p == b.(buckets := p.buckets)
            && Ahead(p.buckets, sec)
            && Total(p.buckets) == Total(b.buckets) + amount
            && Maturing(p.buckets, due) == Maturing(b.buckets, due) + (if Maturity(sec) <= due then amount else 0)
  {
    hide Maturity;
    MaturityGrows(sec, sec);
    PutIntoAdds(b, Maturity(sec), amount, due);
    if b.buckets != [] {
      FirstAhead(b.buckets[0].maturity, sec);
    }
  }

  lemma FirstAhead(maturity: int, sec: int)
    requires maturity % DAY == 0 && sec < maturity
    ensures Maturity(sec) - maturity <= 4 * DAY
  {
    assert sec / DAY < maturity / DAY;
  }

  /** The savings bucket goes back last, and is the one read next. */
  lemma PutSavingsKeeps(b: Balance, amount: int, sec: int, due: int)
    requires Days(b.buckets, sec) && 0 <= amount && Maturity(sec) < END_OF_DAYS
    ensures var p := PutSavings(b, amount);
            && p == b.(buckets := p.buckets)
            && WithoutSavings(p) == b && Savings(p) == amount
            && Total(p.buckets) == Total(b.buckets) + amount
            && (due < END_OF_DAYS ==> Maturing(p.buckets, due) == Maturing(b.buckets, due))
  {
    var p := PutSavings(b, amount);
    if amount != 0 {
      assert p.buckets[..|p.buckets| - 1] == b.buckets;
      LastApart(p.buckets, due);
    }
  }

  /** A purchase is sellable from its maturity on; everything else stays as it was. */
  lemma AddPurchaseKeeps(b: Balance, amount: int, sec: int, due: int)
    requires Partitioned(b, sec) && 0 <= amount && sec <= due < END_OF_DAYS && Maturity(sec) < END_OF_DAYS
    ensures var p := AddPurchase(b, amount, sec).(rex := b.rex + amount);
            && Partitioned(p, sec) && p.voteStake == b.voteStake && b.matured <= p.matured
            && Sellable(p, due) == Sellable(b, due) + (if Maturity(sec) <= due then amount else 0)
  {
    hide Days, Ahead, Mature, PutInto;
    AheadIsDays(sec);
    Parts(b, sec, due);
    var m := Mature(WithoutSavings(b), sec);
    MatureKeeps(WithoutSavings(b), sec, due);
    PutTodayKeeps(m, amount, sec, due);
    PutSavingsKeeps(PutInto(m, Maturity(sec), amount), Savings(b), sec, due);
  }

  lemma AheadIsDays(sec: int)
    ensures forall ds {:trigger Ahead(ds, sec)} :: Ahead(ds, sec) ==> Days(ds, sec)
  {
  }

  lemma {:induction false} TakeBackKeeps(buckets: seq<Bucket>, amount: int, sec: int, due: int)
    requires Ahead(buckets, sec) && 0 <= amount
    ensures var (left, rest) := TakeBack(buckets, amount);
            && Ahead(left, sec)
            && Total(left) == Total(buckets) - (amount - rest)
            && Maturing(left, due) <= Maturing(buckets, due)
            && 0 <= rest <= amount
            && (rest > 0 ==> left == [])
    decreases |buckets|
  {
    hide Maturity, Total, Maturing;
    if buckets != [] && amount > 0 {
      var n := |buckets| - 1;
      LastApart(buckets, due);
      var taken := Min(amount, buckets[n].amount);
      if buckets[n].amount == taken {
        assert Ahead(buckets[..n], sec);
        TakeBackKeeps(buckets[..n], amount - taken, sec, due);
      } else {
        var left := TakeBack(buckets, amount).0;
        assert left[..n] == buckets[..n];
        LastApart(left, due);
      }
    }
  }

  /** Moving to savings never fails once it is allowed, and makes nothing sellable sooner. */
  lemma MoveToSavingsKeeps(b: Balance, amount: int, inOrder: int, sec: int, due: int)
    requires Partitioned(b, sec) && 0 < amount && 0 <= inOrder <= b.matured
    requires sec <= due < END_OF_DAYS && Maturity(sec) < END_OF_DAYS
    ensures var r := MoveToSavings(b, amount, inOrder, sec);
            && (r.Ok? <==> amount + inOrder + Savings(b) <= b.rex)
            && r != Err(Broken) && r != Err(Endless)
            && (r.Ok? ==>
                  && Partitioned(r.value, sec) && r.value.voteStake == b.voteStake && r.value.rex == b.rex
                  && inOrder <= r.value.matured
                  && Savings(r.value) == Savings(b) + amount
                  && Sellable(r.value, due) <= Sellable(b, due))
  {
    hide Days, Ahead, Mature, PutInto, TakeBack, PutSavings;
    AheadIsDays(sec);
    Parts(b, sec, due);
    if amount + inOrder + Savings(b) <= b.rex {
      var m := Mature(WithoutSavings(b), sec);
      MatureKeeps(WithoutSavings(b), sec, due);
      TakeBackKeeps(m.buckets, amount, sec, due);
      var (left, rest) := TakeBack(m.buckets, amount);
      assert rest > 0 ==> Total(left) == 0;
      PutSavingsKeeps(m.(buckets := left, matured := m.matured - rest), Savings(b) + amount, sec, due);
    }
  }

  /** REX moved out of savings matures like REX bought today. */
  lemma MoveFromSavingsKeeps(b: Balance, amount: int, sec: int, due: int)
    requires Partitioned(b, sec) && 0 < amount && sec <= due < END_OF_DAYS && Maturity(sec) < END_OF_DAYS
    ensures var r := MoveFromSavings(b, amount, sec);
            && (r.Ok? <==> amount <= Savings(b))
            && r != Err(Broken) && r != Err(Endless)
            && (r.Ok? ==>
                  && Partitioned(r.value, sec) && r.value.voteStake == b.voteStake && r.value.rex == b.rex
                  && b.matured <= r.value.matured
                  && Savings(r.value) == Savings(b) - amount
                  && Sellable(r.value, due) == Sellable(b, due) + (if Maturity(sec) <= due then amount else 0))
  {
    hide Days, Ahead, Mature, PutInto;
    AheadIsDays(sec);
    Parts(b, sec, due);
    if amount <= Savings(b) {
      var m := Mature(WithoutSavings(b), sec);
      MatureKeeps(WithoutSavings(b), sec, due);
      PutTodayKeeps(m, amount, sec, due);
      PutSavingsKeeps(PutInto(m, Maturity(sec), amount), Savings(b) - amount, sec, due);
    }
  }

  /** Consolidating keeps what an open order needs, and lets the rest mature anew. */
  lemma ConsolidateKeeps(b: Balance, inOrder: int, sec: int, due: int)
    requires Partitioned(b, sec) && 0 <= inOrder <= b.matured
    requires sec <= due < END_OF_DAYS && Maturity(sec) < END_OF_DAYS
    ensures var c := Consolidate(b, inOrder, sec);
            && Partitioned(c, sec) && c.voteStake == b.voteStake && c.rex == b.rex && c.matured == inOrder
            && Savings(c) == Savings(b)
            && (due < Maturity(sec) ==> Sellable(c, due) == inOrder <= Sellable(b, due))
  {
    hide Maturity;
    MaturityGrows(sec, sec);
    Parts(b, sec, due);
    var total := b.matured - inOrder + Total(WithoutSavings(b).buckets);
    var d := b.(matured := inOrder, buckets := if total > 0 then [Bucket(Maturity(sec), total)] else []);
    assert Days(d.buckets, sec);
    if total > 0 {
      LastApart(d.buckets, due);
    }
    PutSavingsKeeps(d, Savings(b), sec, due);
  }

  /** Maturing moves nothing but what is due. */
  lemma MaturedKeeps(b: Balance, sec: int, due: int)
    requires Partitioned(b, sec) && sec <= due < END_OF_DAYS
    ensures var m := Mature(b, sec);
            && Partitioned(m, sec) && m.voteStake == b.voteStake && m.rex == b.rex && b.matured <= m.matured
            && Savings(m) == Savings(b)
            && Sellable(m, due) == Sellable(b, due)
  {
    hide Days, Ahead, Maturity;
    AheadIsDays(sec);
    MatureKeeps(WithoutSavings(b), sec, due);
    MatureBesideSavings(b, sec);
    var m := Mature(b, sec);
    Parts(b, sec, due);
    if HasSavings(b) {
      LastApart(b.buckets, due);
      LastApart(m.buckets, due);
    }
  }

  /** Day buckets mature the same beside a savings bucket. */
  lemma {:induction false} MatureBesideSavings(b: Balance, sec: int)
    requires sec < END_OF_DAYS
    ensures HasSavings(b) ==>
      var m := Mature(b, sec);
      HasSavings(m) && Savings(m) == Savings(b) && WithoutSavings(m) == Mature(WithoutSavings(b), sec)
    ensures !HasSavings(b) ==> !HasSavings(Mature(b, sec))
    decreases |b.buckets|
  {
    if b.buckets != [] && b.buckets[0].maturity <= sec {
      var c := b.(matured := b.matured + b.buckets[0].amount, buckets := b.buckets[1..]);
      MatureBesideSavings(c, sec);
      if HasSavings(b) {
        assert c.buckets[..|c.buckets| - 1] == b.buckets[..|b.buckets| - 1][1..];
      }
    }
  }

  lemma LaterStillPartitioned(b: Balance, sec: int, later: int)
    requires Partitioned(b, sec) && sec <= later
    ensures Partitioned(b, later)
  {
    MaturityGrows(sec, later);
  }
}
