/** Shares: what buying, selling and moving them between buckets does to the books. */
module ExchangeShares {
  import opened Basics
  import opened RexPool
  import opened RexBalance
  import opened Exchange
  import opened ExchangeBooks
  import opened Sums

  // ---------------------------------------------------------------------------------------------
  // One balance row changes: what that means for each book.

  lemma HoldingsPut(shares: int, balances: map<Name, Balance>, now: int, owner: Name, b: Balance)
    requires HoldingsOk(shares, balances, now) && Partitioned(b, Sec(now))
    ensures HoldingsOk(shares + b.rex - HoldingOf(balances, owner).rex, balances[owner := b], now)
  {
    hide Partitioned;
    SumPut(balances, RexOf, owner, b);
  }

  lemma HoldingPartitioned(shares: int, balances: map<Name, Balance>, now: int, owner: Name)
    requires HoldingsOk(shares, balances, now)
    ensures Partitioned(HoldingOf(balances, owner), Sec(now))
  {
  }

  lemma OrdersPutBalance(orders: map<Name, Order>, balances: map<Name, Balance>, now: int, owner: Name, b: Balance)
    requires OrdersOk(orders, balances, now)
    ensures OrdersOk(orders, balances[owner := b], now)
  {
    hide OrderOk;
  }

  lemma CoveredPut(orders: map<Name, Order>, balances: map<Name, Balance>, selling: Option<Name>, owner: Name, b: Balance)
    requires Covered(orders, balances, selling)
    requires HoldingOf(balances, owner).matured <= b.matured || selling == Some(owner) || owner !in orders || !orders[owner].open
             || orders[owner].requested <= b.matured
    ensures Covered(orders, balances[owner := b], selling)
  {
    assert forall a :: a != owner ==> HoldingOf(balances[owner := b], a) == HoldingOf(balances, a);
  }

  lemma TrackedPut(
    staked: map<Name, int>, d: Delegations, balances: map<Name, Balance>, orders: map<Name, Order>,
    drift: map<Name, int>, voter: Name, stake: int, later: int, b: Balance)
    requires Tracked(staked, d, balances, orders, drift, voter, stake) && voter in staked
    requires later == stake + b.voteStake - HoldingOf(balances, voter).voteStake
    ensures Tracked(staked, d, balances[voter := b], orders, drift, voter, later)
  {
    var put := balances[voter := b];
    forall a
      ensures TrackedAt(staked, d, put, orders, drift, voter, later, a)
    {
      assert TrackedAt(staked, d, balances, orders, drift, voter, stake, a);
    }
  }

  lemma NoDustPut(balances: map<Name, Balance>, dust: set<Name>, owner: Name, b: Balance)
    requires NoDust(balances, dust) && (b.rex == 0 && owner !in dust ==> b.voteStake == 0)
    ensures NoDust(balances[owner := b], dust)
  {
  }

  // ---------------------------------------------------------------------------------------------
  // No early sale, for one account.

  lemma {:induction false} AllBoughtByThen(purchases: seq<Purchase>, owner: Name, sec: int, due: int)
    requires Dated(purchases, sec) && Maturity(sec) <= due
    ensures BoughtBy(purchases, owner, due) == BoughtBy(purchases, owner, END_OF_DAYS) || END_OF_DAYS < Maturity(sec)
    decreases |purchases|
  {
    if purchases != [] {
      AllBoughtByThen(purchases[..|purchases| - 1], owner, sec, due);
    }
  }

  lemma BoughtAppend(purchases: seq<Purchase>, p: Purchase, owner: Name, due: int)
    ensures BoughtBy(purchases + [p], owner, due)
            == BoughtBy(purchases, owner, due) + (if p.owner == owner && p.maturity <= due then p.amount else 0)
  {
    assert (purchases + [p])[..|purchases|] == purchases;
  }

  lemma SoldAppend(sales: seq<Sale>, sale: Sale, owner: Name)
    ensures SoldBy(sales + [sale], owner) == SoldBy(sales, owner) + (if sale.owner == owner then sale.amount else 0)
  {
    assert (sales + [sale])[..|sales|] == sales;
  }

  /** REX bought today is on time: it becomes sellable with its maturity. */
  lemma OnTimeBuy(b: Balance, owner: Name, purchases: seq<Purchase>, sales: seq<Sale>, sec: int, amount: int, stake: int)
    requires OnTime(b, owner, purchases, sales, sec) && Partitioned(b, sec)
    requires Maturity(sec) < END_OF_DAYS && 0 <= amount && 0 <= stake
    ensures var c := AddPurchase(b, amount, sec).(rex := b.rex + amount, voteStake := stake);
            && Partitioned(c, sec) && b.matured <= c.matured
            && OnTime(c, owner, purchases + [Purchase(owner, Maturity(sec), amount)], sales, sec)
  {
    hide AddPurchase, Days, Total, Maturing, SoldBy, BoughtBy, Maturity;
    var p := Purchase(owner, Maturity(sec), amount);
    var c := AddPurchase(b, amount, sec).(rex := b.rex + amount, voteStake := stake);
    MaturityGrows(sec, sec);
    AddPurchaseKeeps(b, amount, sec, sec);
    BoughtAppend(purchases, p, owner, END_OF_DAYS);
    forall due | sec <= due < END_OF_DAYS
      ensures SoldBy(sales, owner) + Sellable(c, due) <= BoughtBy(purchases + [p], owner, due)
    {
      AddPurchaseKeeps(b, amount, sec, due);
      BoughtAppend(purchases, p, owner, due);
    }
  }

  /** A sale turns what could be sold at any time into what was. */
  lemma OnTimeSell(b: Balance, owner: Name, purchases: seq<Purchase>, sales: seq<Sale>, sec: int, rex: int, stake: int)
    requires OnTime(b, owner, purchases, sales, sec)
    ensures OnTime(Sold(b, stake, rex), owner, purchases, sales + [Sale(owner, rex)], sec)
  {
    hide SoldBy, BoughtBy, Maturing;
    SoldAppend(sales, Sale(owner, rex), owner);
    var c := Sold(b, stake, rex);
    forall due | sec <= due < END_OF_DAYS
      ensures SoldBy(sales + [Sale(owner, rex)], owner) + Sellable(c, due) <= BoughtBy(purchases, owner, due)
    {
      assert Sellable(c, due) == Sellable(b, due) - rex;
    }
  }

  /** Moving REX between buckets is on time if nothing becomes sellable before today's maturity. */
  lemma OnTimeMove(b: Balance, c: Balance, owner: Name, purchases: seq<Purchase>, sales: seq<Sale>, sec: int)
    requires OnTime(b, owner, purchases, sales, sec) && Dated(purchases, sec) && Maturity(sec) < END_OF_DAYS
    requires Partitioned(c, sec) && c.rex == b.rex
    requires forall due :: sec <= due < Maturity(sec) ==> Sellable(c, due) <= Sellable(b, due)
    ensures OnTime(c, owner, purchases, sales, sec)
  {
    hide SoldBy, BoughtBy, Maturing, Total, Days, Dated, Maturity, Partitioned;
    forall due | sec <= due < END_OF_DAYS
      ensures SoldBy(sales, owner) + Sellable(c, due) <= BoughtBy(purchases, owner, due)
    {
      if due < Maturity(sec) {
        assert Sellable(c, due) <= Sellable(b, due);
      } else {
        Parts(c, sec, due);
        AllBoughtByThen(purchases, owner, sec, due);
      }
    }
  }

  /** Only one account buys or sells at a time. */
  lemma NoEarlySalePut(
    balances: map<Name, Balance>, purchases: seq<Purchase>, sales: seq<Sale>, now: int,
    owner: Name, b: Balance, purchased: seq<Purchase>, sold: seq<Sale>)
    requires NoEarlySale(balances, purchases, sales, now)
    requires Dated(purchased, Sec(now)) && OnTime(b, owner, purchased, sold, Sec(now))
    requires purchased == purchases
             || (|purchased| > 0 && purchased[..|purchased| - 1] == purchases && purchased[|purchased| - 1].owner == owner)
    requires sold == sales || (|sold| > 0 && sold[..|sold| - 1] == sales && sold[|sold| - 1].owner == owner)
    ensures NoEarlySale(balances[owner := b], purchased, sold, now)
  {
    var put, sec := balances[owner := b], Sec(now);
    forall a
      ensures OnTime(HoldingOf(put, a), a, purchased, sold, sec)
    {
      if a != owner {
        hide Sellable, Dated;
        assert OnTime(HoldingOf(balances, a), a, purchases, sales, Sec(now));
        assert HoldingOf(put, a) == HoldingOf(balances, a);
      }
    }
  }

  lemma DatedAppend(purchases: seq<Purchase>, sec: int, owner: Name, amount: int)
    requires Dated(purchases, sec) && 0 <= amount
    ensures Dated(purchases + [Purchase(owner, Maturity(sec), amount)], sec)
  {
    hide Maturity;
  }

  // ---------------------------------------------------------------------------------------------
  // Buying.

  /** A purchase makes the pool larger by the payment, and shares no cheaper. */
  lemma BuyPool(pool: Option<Pool>, l: Loans, payment: int)
    requires PoolOk(pool, l) && 0 < payment
    ensures Buy(pool, payment).Ok?
    ensures var (q, received) := Buy(pool, payment).value;
            && PoolOk(Some(q), l)
            && 0 <= received && 0 < q.rex
            && Balanced(q)
            && Lendable(Some(q)) == Lendable(pool) + payment
            && RexIn(Some(q)) == RexIn(pool) + received
            && (pool.Some? && pool.value.rex > 0 ==> Balanced(pool.value) && NoCheaper(pool.value, q))
  {
    BuyKeeps(pool, payment);
    hide Buy, NoCheaper;
  }

  lemma WorthNonNegative(p: Pool, rex: int)
    requires Balanced(p) && 0 < p.rex && 0 <= rex
    ensures 0 <= Worth(p, rex)
    ensures rex == 0 ==> Worth(p, rex) == 0
  {
    WorthBounds(p, rex, rex);
  }

  /** The row after a purchase is sound and on time. */
  lemma BoughtRow(s: State, c: Context, owner: Name, received: int, stake: int)
    requires Sound(s, c) && 0 <= received && 0 <= stake
    ensures var b := HoldingOf(s.balances, owner);
            var bought := AddPurchase(b, received, Sec(s.now)).(rex := b.rex + received, voteStake := stake);
            var purchases := s.log.purchases + [Purchase(owner, Maturity(Sec(s.now)), received)];
            && b.matured <= bought.matured
            && HoldingsOk(RexIn(s.pool) + received, s.balances[owner := bought], s.now)
            && NoEarlySale(s.balances[owner := bought], purchases, s.log.sales, s.now)
  {
    hide PoolOk, Later, Solvent, OrdersOk, Covered, FundsOk, DelegationsOk, Agree, StakeBacked, Tracked, CreditedOnce, NoDust,
         AddPurchase, Partitioned, Dated, OnTime, Maturity;
    var b := HoldingOf(s.balances, owner);
    var sec := Sec(s.now);
    var bought := AddPurchase(b, received, sec).(rex := b.rex + received, voteStake := stake);
    HoldingPartitioned(RexIn(s.pool), s.balances, s.now, owner);
    assert OnTime(b, owner, s.log.purchases, s.log.sales, sec);
    OnTimeBuy(b, owner, s.log.purchases, s.log.sales, sec, received, stake);
    HoldingsPut(RexIn(s.pool), s.balances, s.now, owner, bought);
    DatedAppend(s.log.purchases, sec, owner, received);
    var purchases := s.log.purchases + [Purchase(owner, Maturity(sec), received)];
    assert purchases[..|purchases| - 1] == s.log.purchases;
    NoEarlySalePut(s.balances, s.log.purchases, s.log.sales, s.now, owner, bought, purchases, s.log.sales);
  }

  /** What a purchase does to the books that look at neither votes nor money. */
  lemma BuyBooks(s: State, c: Context, owner: Name, payment: int)
    requires Sound(s, c) && 0 < payment
    ensures BuyIn(s, owner, payment).Ok?
    ensures var (t, change) := BuyIn(s, owner, payment).value;
            && owner in t.balances
            && t == s.(pool := t.pool, balances := s.balances[owner := t.balances[owner]],
                       log := s.log.(purchases := t.log.purchases, dust := t.log.dust, epoch := t.log.epoch))
            && PoolOk(t.pool, t.loans)
            && Later(c.pool, c.epoch, t.pool, t.log.epoch)
            && HoldingsOk(RexIn(t.pool), t.balances, t.now)
            && NoEarlySale(t.balances, t.log.purchases, t.log.sales, t.now)
            && NoDust(t.balances, t.log.dust)
            && HoldingOf(s.balances, owner).matured <= t.balances[owner].matured
            && change == t.balances[owner].voteStake - HoldingOf(s.balances, owner).voteStake
            && Lendable(t.pool) == Lendable(s.pool) + payment
  {
    hide PoolOk, Solvent, HoldingsOk, Covered, FundsOk, DelegationsOk, Agree, StakeBacked, Tracked, CreditedOnce,
         NoEarlySale, Buy, Worth, NoCheaper, Balanced, Later, OrdersOk, NoDust, AddPurchase, Maturity;
    BuyPool(s.pool, s.loans, payment);
    RexNonNegative(s, c, owner);
    var (q, received) := Buy(s.pool, payment).value;
    var b := HoldingOf(s.balances, owner);
    var isNew := owner !in s.balances;
    WorthNonNegative(q, b.rex + received);
    var stake := if isNew then payment else Worth(q, b.rex + received);
    BoughtRow(s, c, owner, received, stake);
    BuyLater(s, c, q);
    var bought := AddPurchase(b, received, Sec(s.now)).(rex := b.rex + received, voteStake := stake);
    var dust := if isNew && received == 0 then s.log.dust + {owner} else s.log.dust;
    assert NoDust(s.balances, dust) by {
      DustGrows(s.balances, s.log.dust, dust);
    }
    NoDustPut(s.balances, dust, owner, bought);
  }

  lemma DustGrows(balances: map<Name, Balance>, dust: set<Name>, more: set<Name>)
    requires NoDust(balances, dust) && dust <= more
    ensures NoDust(balances, more)
  {
  }

  lemma BuyLater(s: State, c: Context, q: Pool)
    requires Later(c.pool, c.epoch, s.pool, s.log.epoch) && Balanced(q)
    requires s.pool.Some? && s.pool.value.rex > 0 ==> Balanced(s.pool.value) && NoCheaper(s.pool.value, q)
    ensures Later(c.pool, c.epoch, Some(q), if RexAvailable(s) then s.log.epoch else s.log.epoch + 1)
  {
    hide Balanced, NoCheaper;
    if RexAvailable(s) {
      LaterChain(c.pool, c.epoch, s.pool.value, s.log.epoch, q);
    }
  }

  /** Tokens pending go into the pool, and the change of the buyer's vote stake becomes pending. */
  lemma BuyInKeeps(s: State, c: Context, payment: int)
    requires Sound(s, c) && 0 < payment && c.voter in s.staked && !c.selling
    ensures var r := BuyIn(s, c.voter, payment);
            && r.Ok?
            && Sound(r.value.0, c.(money := c.money - payment, stake := c.stake + r.value.1))
            && r.value.0.staked == s.staked
  {
    hide PoolOk, HoldingsOk, FundsOk, DelegationsOk, Agree, StakeBacked, NoEarlySale, CreditedOnce, OrdersOk, NoDust, Later,
         BuyIn, Sum, LoanFunds, Lendable, Tracked, Covered;
    var owner := c.voter;
    BuyBooks(s, c, owner, payment);
    var (t, change) := BuyIn(s, owner, payment).value;
    var bought := t.balances[owner];
    OrdersPutBalance(s.orders, s.balances, s.now, owner, bought);
    CoveredPut(s.orders, s.balances, Seller(c), owner, bought);
    TrackedPut(s.staked, s.delegated, s.balances, s.orders, s.log.drift, owner, c.stake, c.stake + change, bought);
  }

  lemma RexNonNegative(s: State, c: Context, owner: Name)
    requires Sound(s, c)
    ensures var b := HoldingOf(s.balances, owner); 0 <= b.rex && 0 <= b.matured <= b.rex && b.rex <= RexIn(s.pool)
  {
    hide PoolOk, Later, Solvent, OrdersOk, Covered, FundsOk, DelegationsOk, Agree, StakeBacked, Tracked, CreditedOnce, NoDust,
         NoEarlySale, Partitioned;
    forall a | a in s.balances
      ensures 0 <= s.balances[a].rex
    {
      HeldWithin(s.balances[a], Sec(s.now));
    }
    HoldingPartitioned(RexIn(s.pool), s.balances, s.now, owner);
    HeldWithin(HoldingOf(s.balances, owner), Sec(s.now));
    SumBounds(s.balances, RexOf);
    assert owner in s.balances ==> RexOf(owner, s.balances[owner]) == s.balances[owner].rex;
  }

  lemma HeldWithin(b: Balance, sec: int)
    requires Partitioned(b, sec)
    ensures 0 <= b.matured <= b.rex
  {
    Parts(b, sec, sec);
  }

  // ---------------------------------------------------------------------------------------------
  // Selling.

  /** An amount of REX that an account could sell now. */
  ghost predicate CanSell(s: State, owner: Name, rex: int) {
    owner in s.balances && 0 < rex <= s.balances[owner].matured
  }

  /** A sale never divides by zero; if filled, the pool stays sound and shares get no cheaper. */
  lemma FillPool(s: State, c: Context, owner: Name, rex: int)
    requires Sound(s, c) && CanSell(s, owner, rex)
    ensures s.pool.Some?
    ensures var p := s.pool.value;
            && 0 < rex <= s.balances[owner].rex <= p.rex
            && Fill(p, rex).Ok?
            && (Fill(p, rex).value.Some? ==>
                  var (q, proceeds) := Fill(p, rex).value.value;
                  && PoolOk(Some(q), s.loans)
                  && Balanced(p) && Balanced(q) && NoCheaper(p, q)
                  && q.rex == p.rex - rex && q.lendable == p.lendable - proceeds
                  && 0 <= proceeds <= Worth(p, s.balances[owner].rex)
                  && (rex == s.balances[owner].rex ==> proceeds == Worth(p, s.balances[owner].rex)))
  {
    RexNonNegative(s, c, owner);
    hide Later, Solvent, HoldingsOk, OrdersOk, Covered, FundsOk, DelegationsOk, Agree, StakeBacked, Tracked, CreditedOnce, NoDust,
         NoEarlySale;
    var p := s.pool.value;
    FillKeeps(p, rex);
    WorthBounds(p, rex, s.balances[owner].rex);
    hide Fill, Worth;
  }

  lemma SoldRow(s: State, c: Context, owner: Name, rex: int, stake: int)
    requires Sound(s, c) && CanSell(s, owner, rex) && 0 <= stake
    ensures var sold := Sold(s.balances[owner], stake, rex);
            var sales := s.log.sales + [Sale(owner, rex)];
            && HoldingsOk(RexIn(s.pool) - rex, s.balances[owner := sold], s.now)
            && NoEarlySale(s.balances[owner := sold], s.log.purchases, sales, s.now)
  {
    hide PoolOk, Later, Solvent, OrdersOk, Covered, FundsOk, DelegationsOk, Agree, StakeBacked, Tracked, CreditedOnce, NoDust,
         Dated, OnTime;
    var b := s.balances[owner];
    var sec := Sec(s.now);
    var sold := Sold(b, stake, rex);
    assert Partitioned(sold, sec);
    HoldingsPut(RexIn(s.pool), s.balances, s.now, owner, sold);
    assert OnTime(HoldingOf(s.balances, owner), owner, s.log.purchases, s.log.sales, sec);
    OnTimeSell(b, owner, s.log.purchases, s.log.sales, sec, rex, stake);
    var sales := s.log.sales + [Sale(owner, rex)];
    assert sales[..|sales| - 1] == s.log.sales;
    NoEarlySalePut(s.balances, s.log.purchases, s.log.sales, s.now, owner, sold, s.log.purchases, sales);
  }

  /** The tables after a sale. */
  function SoldTables(s: State, owner: Name, rex: int, q: Pool, proceeds: int, stake: int): State
    requires owner in s.balances
  {
    s.(pool := Some(q), balances := s.balances[owner := Sold(s.balances[owner], stake, rex)],
       log := s.log.(sales := s.log.sales + [Sale(owner, rex)], deals := s.log.deals + [Deal(owner, FromSale, proceeds)]))
  }

  lemma FillOrderNone(s: State, owner: Name, rex: int)
    requires owner in s.balances && s.pool.Some? && Fill(s.pool.value, rex) == Ok(None)
    ensures FillOrder(s, owner, rex) == Ok((s, None))
  {
    hide Fill;
  }

  lemma FillOrderIs(s: State, owner: Name, rex: int, q: Pool, proceeds: int)
    requires owner in s.balances && s.pool.Some? && s.pool.value.rex != 0
    requires Fill(s.pool.value, rex) == Ok(Some((q, proceeds)))
    ensures var stake := Worth(s.pool.value, s.balances[owner].rex) - proceeds;
            FillOrder(s, owner, rex)
            == Ok((SoldTables(s, owner, rex, q, proceeds, stake), Some((proceeds, stake - s.balances[owner].voteStake))))
  {
    hide Fill, Worth, Sold;
  }

  /** What a sale does, wherever it comes from, to the books that do not look at orders. */
  lemma FillBooks(s: State, c: Context, owner: Name, rex: int)
    requires Sound(s, c) && CanSell(s, owner, rex)
    ensures FillOrder(s, owner, rex).Ok?
    ensures var (t, filled) := FillOrder(s, owner, rex).value;
            && (filled.None? ==> t == s)
            && (filled.Some? ==>
                  var (proceeds, change) := filled.value;
                  var sold := Sold(s.balances[owner], s.balances[owner].voteStake + change, rex);
                  && t == s.(pool := t.pool, balances := s.balances[owner := sold],
                             log := s.log.(sales := s.log.sales + [Sale(owner, rex)], deals := t.log.deals))
                  && PoolOk(t.pool, t.loans)
                  && Later(c.pool, c.epoch, t.pool, t.log.epoch)
                  && HoldingsOk(RexIn(t.pool), t.balances, t.now)
                  && NoEarlySale(t.balances, t.log.purchases, t.log.sales, t.now)
                  && NoDust(t.balances, t.log.dust)
                  && OrdersOk(t.orders, t.balances, t.now)
                  && 0 <= proceeds && Lendable(t.pool) == Lendable(s.pool) - proceeds)
  {
    hide PoolOk, Solvent, HoldingsOk, Covered, FundsOk, DelegationsOk, Agree, StakeBacked, Tracked, CreditedOnce,
         NoEarlySale, Fill, Worth, NoCheaper, Balanced, Later, OrdersOk, NoDust, FillOrder;
    FillPool(s, c, owner, rex);
    var p := s.pool.value;
    if Fill(p, rex).value.None? {
      FillOrderNone(s, owner, rex);
    } else {
      var (q, proceeds) := Fill(p, rex).value.value;
      FillOrderIs(s, owner, rex, q, proceeds);
      var stake := Worth(p, s.balances[owner].rex) - proceeds;
      SoldRow(s, c, owner, rex, stake);
      LaterChain(c.pool, c.epoch, p, s.log.epoch, q);
      var sold := Sold(s.balances[owner], stake, rex);
      OrdersPutBalance(s.orders, s.balances, s.now, owner, sold);
      NoDustPut(s.balances, s.log.dust, owner, sold);
    }
  }

  /** A direct sale: its proceeds and the change of the seller's vote stake become pending. */
  lemma FillOrderKeeps(s: State, c: Context, rex: int)
    requires Sound(s, c) && CanSell(s, c.voter, rex)
    ensures var r := FillOrder(s, c.voter, rex);
            && r.Ok?
            && (r.value.1.None? ==> r.value.0 == s)
            && (r.value.1.Some? ==>
                  var (proceeds, change) := r.value.1.value;
                  && 0 <= proceeds
                  && Sound(r.value.0, c.(money := c.money + proceeds, stake := c.stake + change, selling := true)))
  {
    hide PoolOk, HoldingsOk, FundsOk, DelegationsOk, Agree, StakeBacked, NoEarlySale, CreditedOnce, OrdersOk, NoDust, Later,
         FillOrder, Sum, LoanFunds, Lendable;
    var owner := c.voter;
    FillBooks(s, c, owner, rex);
    var (t, filled) := FillOrder(s, owner, rex).value;
    if filled.Some? {
      var (proceeds, change) := filled.value;
      var sold := t.balances[owner];
      assert Covered(s.orders, s.balances, Some(owner));
      CoveredPut(s.orders, s.balances, Some(owner), owner, sold);
      TrackedPut(s.staked, s.delegated, s.balances, s.orders, s.log.drift, owner, c.stake, c.stake + change, sold);
      hide Tracked, Covered;
    }
  }

  // ---------------------------------------------------------------------------------------------
  // The queue.

  function Closed(o: Order, proceeds: int, change: int): Order {
    o.(proceeds := proceeds, stakeChange := change, open := false)
  }

  /** Until it is claimed, a filled order holds back the change of stake its sale made. */
  lemma TrackedFill(
    staked: map<Name, int>, d: Delegations, balances: map<Name, Balance>, orders: map<Name, Order>,
    drift: map<Name, int>, voter: Name, stake: int, owner: Name, b: Balance, proceeds: int)
    requires Tracked(staked, d, balances, orders, drift, voter, stake)
    requires owner in balances && owner in orders && orders[owner].open
    ensures Tracked(staked, d, balances[owner := b],
                    orders[owner := Closed(orders[owner], proceeds, b.voteStake - balances[owner].voteStake)],
                    drift, voter, stake)
  {
    var o := Closed(orders[owner], proceeds, b.voteStake - balances[owner].voteStake);
    var put, closed := balances[owner := b], orders[owner := o];
    forall a
      ensures TrackedAt(staked, d, put, closed, drift, voter, stake, a)
    {
      assert TrackedAt(staked, d, balances, orders, drift, voter, stake, a);
    }
  }

  lemma CreditedFill(
    orders: map<Name, Order>, fills: map<Name, seq<int>>, credits: map<Name, seq<int>>, voter: Name, filled: seq<int>,
    owner: Name, proceeds: int, change: int)
    requires CreditedOnce(orders, fills, credits, voter, filled) && owner in orders && orders[owner].open
    requires owner == voter ==> filled == []
    ensures CreditedOnce(orders[owner := Closed(orders[owner], proceeds, change)],
                         fills[owner := Entries(fills, owner) + [proceeds]], credits, voter, filled)
  {
    var o := Closed(orders[owner], proceeds, change);
    var f := fills[owner := Entries(fills, owner) + [proceeds]];
    var closed := orders[owner := o];
    forall a
      ensures CreditedAt(closed, f, credits, voter, filled, a)
    {
      assert CreditedAt(orders, fills, credits, voter, filled, a);
    }
  }

  lemma OrdersFill(orders: map<Name, Order>, balances: map<Name, Balance>, now: int, owner: Name, o: Order)
    requires OrdersOk(orders, balances, now) && owner in balances && OrderOk(o, now)
    ensures OrdersOk(orders[owner := o], balances, now)
  {
    hide OrderOk;
  }

  lemma CoveredFill(orders: map<Name, Order>, balances: map<Name, Balance>, owner: Name, o: Order, b: Balance)
    requires Covered(orders, balances, None) && !o.open
    ensures Covered(orders[owner := o], balances[owner := b], None)
  {
    assert forall a :: a != owner ==> HoldingOf(balances[owner := b], a) == HoldingOf(balances, a);
  }

  /** The REX an open order is for can be sold, and its owner has a balance. */
  lemma OpenOrderCanSell(s: State, c: Context, owner: Name)
    requires Sound(s, c) && !c.selling && owner in s.orders && s.orders[owner].open
    ensures CanSell(s, owner, s.orders[owner].requested)
  {
    hide PoolOk, HoldingsOk, FundsOk, DelegationsOk, Agree, StakeBacked, NoEarlySale, CreditedOnce, NoDust, Later, Tracked;
    assert OrderOk(s.orders[owner], s.now);
  }

  /** Filling a queued order leaves nothing pending: its row keeps what its owner is still to get. */
  lemma FillQueuedKeeps(s: State, c: Context, owner: Name)
    requires Sound(s, c) && !c.selling && c.filled == [] && owner in s.orders && s.orders[owner].open
    ensures owner in s.balances
    ensures Keeps(FillQueued(s, owner), c)
  {
    hide PoolOk, HoldingsOk, FundsOk, DelegationsOk, Agree, StakeBacked, NoEarlySale, CreditedOnce, OrdersOk, NoDust, Later,
         FillOrder, Sum, LoanFunds, Lendable, Tracked, Covered;
    var o := s.orders[owner];
    OpenOrderCanSell(s, c, owner);
    FillBooks(s, c, owner, o.requested);
    var (t, filled) := FillOrder(s, owner, o.requested).value;
    if filled.Some? {
      var (proceeds, change) := filled.value;
      var sold := t.balances[owner];
      TrackedFill(s.staked, s.delegated, s.balances, s.orders, s.log.drift, c.voter, c.stake, owner, sold, proceeds);
      CreditedFill(s.orders, s.log.fills, s.log.credits, c.voter, c.filled, owner, proceeds, change);
      SumPut(s.orders, ProceedsOf, owner, Closed(o, proceeds, change));
      OrdersFill(t.orders, t.balances, t.now, owner, Closed(o, proceeds, change));
      CoveredFill(s.orders, s.balances, owner, Closed(o, proceeds, change), sold);
    }
  }
}
