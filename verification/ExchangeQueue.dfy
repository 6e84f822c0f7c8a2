/**
 The queue of sell orders: which orders one round of maintenance fills, which it passes over, and which
 orders are overtaken by later ones.
 */
module ExchangeQueue {
  import opened Basics
  import opened RexPool
  import opened RexBalance
  import opened Exchange
  import opened ExchangeBooks
  import opened ExchangeShares
  import opened ExchangeOrders
  import SortedIndex

  predicate Open(orders: map<Name, Order>, x: Name) {
    x in orders && orders[x].open
  }

  predicate Distinct(queue: seq<Name>) {
    forall i, j :: 0 <= i < j < |queue| ==> queue[i] != queue[j]
  }

  /** All orders up to a place in the queue are open. */
  predicate OpenUpTo(orders: map<Name, Order>, queue: seq<Name>, n: nat) {
    forall k :: 0 <= k < n && k < |queue| ==> Open(orders, queue[k])
  }

  /** Every order is in the queue once, open ones before filled ones, and earlier ones before later ones. */
  lemma QueueInOrder(orders: map<Name, Order>, now: int)
    requires ClockOk(now) && forall a :: a in orders ==> OrderOk(orders[a], now)
    ensures var queue := Queue(orders);
            && Distinct(queue) && (forall a :: a in queue <==> a in orders)
            && (forall i, j :: 0 <= i < j < |queue| && Open(orders, queue[j]) ==> Open(orders, queue[i]))
            && (forall i, j :: 0 <= i < j < |queue| && Open(orders, queue[j]) ==> orders[queue[i]].time <= orders[queue[j]].time)
  {
    var keys, queue := OrderKeys(orders), Queue(orders);
    assert keys.Keys == orders.Keys;
    SortedIndex.WalkIsIndex(keys);
    assert forall a :: a in queue <==> a in keys;
    forall i, j | 0 <= i < j < |queue|
      ensures queue[i] != queue[j]
      ensures Open(orders, queue[j]) ==> Open(orders, queue[i]) && orders[queue[i]].time <= orders[queue[j]].time
    {
      assert SortedIndex.Before(keys, queue[i], queue[j]);
      if Open(orders, queue[j]) {
        BeforeLast(orders[queue[j]], now);
      }
    }
  }

  // ---------------------------------------------------------------------------------------------
  // One attempt, and many.

  /** Whether the pool can pay for an order now: what is unlent, less a fifth of what is lent. */
  predicate Fits(pool: Option<Pool>, rex: int) {
    pool.Some? && pool.value.rex != 0 && Worth(pool.value, rex) <= pool.value.unlent - 2 * pool.value.lent / 10
  }

  lemma FillQueuedOrders(s: State, owner: Name)
    requires owner in s.orders && owner in s.balances && s.pool.Some? && s.pool.value.rex != 0
    ensures var o, p, b := s.orders[owner], s.pool.value, s.balances[owner];
            var proceeds := Worth(p, o.requested);
            && FillQueued(s, owner).Ok?
            && FillQueued(s, owner).value.orders
               == if Fits(s.pool, o.requested)
                  then s.orders[owner := Closed(o, proceeds, Worth(p, b.rex) - proceeds - b.voteStake)] else s.orders
  {
    hide Worth, Record;
    var o, p, b := s.orders[owner], s.pool.value, s.balances[owner];
    if Fits(s.pool, o.requested) {
      var proceeds := Worth(p, o.requested);
      var stake := Worth(p, b.rex) - proceeds;
      var q := Fill(p, o.requested).value.value.0;
      RecordOrders(s.(pool := Some(q), balances := s.balances[owner := Sold(b, stake, o.requested)],
                      log := s.log.(sales := s.log.sales + [Sale(owner, o.requested)])), owner, FromSale, proceeds);
    }
  }

  lemma RecordOrders(s: State, owner: Name, reason: Reason, amount: int)
    ensures Record(s, owner, reason, amount).orders == s.orders
  {
  }

  lemma FilledIff(s: State, c: Context, owner: Name)
    requires Sound(s, c) && !c.selling && c.filled == [] && Open(s.orders, owner)
    ensures var r := FillQueued(s, owner);
            && r.Ok? && Sound(r.value, c)
            && r.value.orders.Keys == s.orders.Keys
            && (r.value.orders[owner].open <==> !Fits(s.pool, s.orders[owner].requested))
            && (forall x :: x in s.orders && x != owner ==> r.value.orders[x] == s.orders[x])
  {
    hide Sound, Worth, Fits, FillQueued;
    FillQueuedKeeps(s, c, owner);
    OpenOrderCanSell(s, c, owner);
    FillPool(s, c, owner, s.orders[owner].requested);
    FillQueuedOrders(s, owner);
  }

  /** What a round does to orders it does not come to. */
  lemma {:induction false} OthersSpared(s: State, c: Context, queue: seq<Name>, max: nat, x: Name)
    requires Sound(s, c) && !c.selling && c.filled == [] && x in s.orders
    requires forall k :: 0 <= k < max && k < |queue| ==> queue[k] != x
    ensures var r := FillOrders(s, queue, max);
            r.Ok? && Sound(r.value, c) && x in r.value.orders && r.value.orders[x] == s.orders[x]
    decreases max
  {
    hide Sound, FillQueued, Fits;
    if max > 0 && queue != [] && Open(s.orders, queue[0]) {
      FilledIff(s, c, queue[0]);
      OthersSpared(FillQueued(s, queue[0]).value, c, queue[1..], max - 1, x);
    }
  }

  /** A round can be cut in two anywhere among open orders. */
  lemma {:induction false} CutRound(s: State, c: Context, queue: seq<Name>, max: nat, i: nat)
    requires Sound(s, c) && !c.selling && c.filled == []
    requires Distinct(queue) && i <= max && i <= |queue| && OpenUpTo(s.orders, queue, i)
    ensures var r := FillOrders(s, queue, i);
            r.Ok? && Sound(r.value, c) && FillOrders(s, queue, max) == FillOrders(r.value, queue[i..], max - i)
    decreases i
  {
    hide Sound, FillQueued, Fits;
    if i > 0 {
      assert Open(s.orders, queue[0]);
      FilledIff(s, c, queue[0]);
      var t := FillQueued(s, queue[0]).value;
      var rest := queue[1..];
      forall k | 0 <= k < i - 1 && k < |rest|
        ensures Open(t.orders, rest[k])
      {
        assert Open(s.orders, queue[k + 1]);
      }
      CutRound(t, c, rest, max - 1, i - 1);
      assert rest[i - 1..] == queue[i..];
    } else {
      assert queue[0..] == queue;
    }
  }

  /** The pool once an order is paid out of it. */
  function Paid(p: Pool, rex: int): Pool
    requires p.rex != 0
  {
    var proceeds := Worth(p, rex);
    p.(rex := p.rex - rex, lendable := p.lendable - proceeds, unlent := p.lendable - proceeds - p.lent)
  }

  function Requested(orders: map<Name, Order>, x: Name): int {
    if x in orders then orders[x].requested else 0
  }

  /** The pool when an order's turn comes: of the orders ahead, those that fit in their turn were paid out of it. */
  function PoolInTurn(pool: Option<Pool>, orders: map<Name, Order>, queue: seq<Name>, i: nat): Option<Pool>
    requires i <= |queue|
    decreases i
  {
    if i == 0 then pool
    else
      var ahead := PoolInTurn(pool, orders, queue, i - 1);
      var rex := Requested(orders, queue[i - 1]);
      if Fits(ahead, rex) then Some(Paid(ahead.value, rex)) else ahead
  }

  /** Whether an order fits when its turn comes in a round. */
  predicate FitsInTurn(s: State, queue: seq<Name>, i: nat)
    requires i < |queue|
  {
    Fits(PoolInTurn(s.pool, s.orders, queue, i), Requested(s.orders, queue[i]))
  }

  /** What filling one order makes of the pool. */
  lemma FillQueuedPool(s: State, owner: Name)
    requires owner in s.orders && owner in s.balances && s.pool.Some? && s.pool.value.rex != 0
    ensures var rex := s.orders[owner].requested;
            && FillQueued(s, owner).Ok?
            && FillQueued(s, owner).value.pool == if Fits(s.pool, rex) then Some(Paid(s.pool.value, rex)) else s.pool
  {
    hide Worth;
  }

  /** A round's pool is that of the recursion over the requested amounts alone. */
  lemma {:induction false} RoundPool(s: State, c: Context, queue: seq<Name>, i: nat)
    requires Sound(s, c) && !c.selling && c.filled == []
    requires Distinct(queue) && i <= |queue| && OpenUpTo(s.orders, queue, i)
    ensures var r := FillOrders(s, queue, i);
            r.Ok? && r.value.pool == PoolInTurn(s.pool, s.orders, queue, i)
    decreases i
  {
    hide Sound, FillQueued, Fits, Paid;
    if i > 0 {
      RoundPool(s, c, queue, i - 1);
      CutRound(s, c, queue, i, i - 1);
      var u := FillOrders(s, queue, i - 1).value;
      var x := queue[i - 1];
      assert Open(s.orders, x);
      OthersSpared(s, c, queue, i - 1, x);
      OpenOrderCanSell(u, c, x);
      FillPool(u, c, x, u.orders[x].requested);
      FillQueuedPool(u, x);
      LastOfRound(u, queue[i - 1..]);
    }
  }

  lemma LastOfRound(s: State, queue: seq<Name>)
    requires queue != [] && Open(s.orders, queue[0]) && FillQueued(s, queue[0]).Ok?
    ensures FillOrders(s, queue, 1) == FillQueued(s, queue[0])
  {
    hide FillQueued;
    assert FillOrders(FillQueued(s, queue[0]).value, queue[1..], 0) == FillQueued(s, queue[0]);
  }

  /** An open order within a round's reach is filled exactly if it fits in its turn. */
  lemma AttemptedIff(s: State, c: Context, queue: seq<Name>, max: nat, i: nat)
    requires Sound(s, c) && !c.selling && c.filled == []
    requires Distinct(queue) && i < max && i < |queue| && OpenUpTo(s.orders, queue, i + 1)
    ensures var r := FillOrders(s, queue, max);
            && r.Ok? && queue[i] in r.value.orders
            && (r.value.orders[queue[i]].open <==> !FitsInTurn(s, queue, i))
  {
    hide Sound, FillQueued, Fits;
    var x := queue[i];
    assert Open(s.orders, x);
    CutRound(s, c, queue, max, i);
    OthersSpared(s, c, queue, i, x);
    RoundPool(s, c, queue, i);
    var u := FillOrders(s, queue, i).value;
    var rest := queue[i..];
    FilledIff(u, c, x);
    var t := FillQueued(u, x).value;
    assert FillOrders(u, rest, max - i) == FillOrders(t, rest[1..], max - i - 1);
    OthersSpared(t, c, rest[1..], max - i - 1, x);
  }

  // ---------------------------------------------------------------------------------------------
  // Over the index itself.

  /**
   A round of maintenance attempts the first open orders in order of time; of these it fills exactly those
   that fit in their turn, and passes over the others.
   */
  lemma PassedOverIff(s: State, max: nat, i: nat)
    requires Steady(s) && i < max && i < |Queue(s.orders)| && Open(s.orders, Queue(s.orders)[i])
    ensures var queue := Queue(s.orders);
            var r := FillOrders(s, queue, max);
            && r.Ok? && queue[i] in r.value.orders
            && (r.value.orders[queue[i]].open <==> !FitsInTurn(s, queue, i))
  {
    hide Sound, Queue, FillOrders, FitsInTurn;
    SteadyQueue(s);
    AttemptedIff(s, Idle(s, 0), Queue(s.orders), max, i);
  }

  lemma SteadyQueue(s: State)
    requires Steady(s)
    ensures ClockOk(s.now) && forall a :: a in s.orders ==> OrderOk(s.orders[a], s.now)
    ensures var queue := Queue(s.orders);
            && Distinct(queue) && (forall a :: a in queue <==> a in s.orders)
            && (forall i: nat :: i < |queue| && Open(s.orders, queue[i]) ==> OpenUpTo(s.orders, queue, i + 1))
  {
    hide PoolOk, Later, Solvent, HoldingsOk, Covered, FundsOk, DelegationsOk, Agree, StakeBacked, Tracked, NoEarlySale,
         CreditedOnce, NoDust, Queue;
    QueueInOrder(s.orders, s.now);
  }

  /** An order is overtaken when a round leaves it open and fills one that came later. */
  predicate Overtaken(s: State, max: nat, i: nat)
    requires i < |Queue(s.orders)|
  {
    var queue := Queue(s.orders);
    var r := FillOrders(s, queue, max);
    r.Ok? && Open(r.value.orders, queue[i]) && exists j :: i < j < |queue| && FilledBy(s.orders, r.value.orders, queue[j])
  }

  predicate FilledBy(before: map<Name, Order>, after: map<Name, Order>, x: Name) {
    Open(before, x) && !Open(after, x)
  }

  /**
   The queue is no first-in-first-out queue: an order within a round's reach is overtaken exactly if it
   does not fit in its turn and a later one within reach does in its own.
   */
  lemma OvertakenIff(s: State, max: nat, i: nat)
    requires Steady(s) && i < max && i < |Queue(s.orders)| && Open(s.orders, Queue(s.orders)[i])
    ensures var queue := Queue(s.orders);
            Overtaken(s, max, i)
            <==> && !FitsInTurn(s, queue, i)
                 && exists j :: i < j < max && j < |queue| && Open(s.orders, queue[j]) && FitsInTurn(s, queue, j)
  {
    hide Sound, Queue, FillOrders, FitsInTurn;
    var queue := Queue(s.orders);
    PassedOverIff(s, max, i);
    var r := FillOrders(s, queue, max);
    forall j | i < j < |queue|
      ensures FilledBy(s.orders, r.value.orders, queue[j])
              <==> j < max && Open(s.orders, queue[j]) && FitsInTurn(s, queue, j)
    {
      if Open(s.orders, queue[j]) {
        if j < max {
          PassedOverIff(s, max, j);
        } else {
          BeyondReach(s, max, j);
        }
      }
    }
  }

  lemma BeyondReach(s: State, max: nat, j: nat)
    requires Steady(s) && max <= j < |Queue(s.orders)| && Open(s.orders, Queue(s.orders)[j])
    ensures var r := FillOrders(s, Queue(s.orders), max); r.Ok? && Open(r.value.orders, Queue(s.orders)[j])
  {
    hide Sound, Queue, FillOrders;
    SteadyQueue(s);
    OthersSpared(s, Idle(s, 0), Queue(s.orders), max, Queue(s.orders)[j]);
  }
}
