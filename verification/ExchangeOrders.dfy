/** The queue, its settlement and upkeep: what claiming, queueing and maintenance do to the books. */
module ExchangeOrders {
  import opened Basics
  import opened RexPool
  import opened RexBalance
  import opened Exchange
  import opened ExchangeBooks
  import opened ExchangeParts
  import opened ExchangeLoans
  import opened ExchangeShares
  import opened Sums
  import SortedIndex

  // ---------------------------------------------------------------------------------------------
  // Claiming what a filled order holds.

  lemma TrackedClaim(
    staked: map<Name, int>, d: Delegations, balances: map<Name, Balance>, orders: map<Name, Order>,
    drift: map<Name, int>, voter: Name, stake: int, later: int)
    requires Tracked(staked, d, balances, orders, drift, voter, stake)
    requires later == stake + HeldBack(orders, voter)
    ensures Tracked(staked, d, balances, orders - {voter}, drift, voter, later)
  {
    var rest := orders - {voter};
    forall a
      ensures TrackedAt(staked, d, balances, rest, drift, voter, later, a)
    {
      assert TrackedAt(staked, d, balances, orders, drift, voter, stake, a);
    }
  }

  lemma CreditedClaim(orders: map<Name, Order>, fills: map<Name, seq<int>>, credits: map<Name, seq<int>>, owner: Name)
    requires CreditedOnce(orders, fills, credits, owner, [])
    ensures CreditedOnce(orders - {owner}, fills, credits, owner, Unclaimed(orders, owner))
  {
    var rest, filled := orders - {owner}, Unclaimed(orders, owner);
    forall a
      ensures CreditedAt(rest, fills, credits, owner, filled, a)
    {
      assert CreditedAt(orders, fills, credits, owner, [], a);
    }
  }

  /** What leaves the table becomes pending. */
  lemma ClaimOrderKeeps(s: State, c: Context)
    requires Sound(s, c) && c.filled == []
    ensures var (t, filled, change) := ClaimOrder(s, c.voter);
            && Sound(t, c.(money := c.money + Amount(filled), stake := c.stake + change, filled := filled))
            && filled == Unclaimed(s.orders, c.voter) && 0 <= Amount(filled) && t.funds == s.funds
  {
    hide PoolOk, Later, HoldingsOk, FundsOk, DelegationsOk, Agree, StakeBacked, Tracked, NoEarlySale, CreditedOnce, NoDust,
         LoanFunds, Sum;
    var owner := c.voter;
    if owner in s.orders && !s.orders[owner].open {
      assert OrderOk(s.orders[owner], s.now);
      SumDrop(s.orders, ProceedsOf, owner);
      TrackedClaim(s.staked, s.delegated, s.balances, s.orders, s.log.drift, owner, c.stake,
                   c.stake + s.orders[owner].stakeChange);
      CreditedClaim(s.orders, s.log.fills, s.log.credits, owner);
    }
  }

  /** The funds once an account is paid the proceeds at hand and those its filled order held. */
  function PaidFunds(s: State, owner: Name, proceeds: int): map<Name, int> {
    var paid := proceeds + Amount(Unclaimed(s.orders, owner));
    if paid > 0 then s.funds[owner := At(s.funds, owner) + paid] else s.funds
  }

  lemma PaidToOwner(s: State, owner: Name, proceeds: int, x: Name)
    requires 0 <= proceeds + Amount(Unclaimed(s.orders, owner))
    ensures At(PaidFunds(s, owner, proceeds), x)
            == At(s.funds, x) + (if x == owner then proceeds + Amount(Unclaimed(s.orders, owner)) else 0)
  {
    hide Amount, Unclaimed;
  }

  /**
   All that is pending for an account is settled: proceeds to its own fund and to no other, the rest to
   its vote.
   */
  lemma UpdateAccountKeeps(s: State, c: Context, proceeds: int, force: bool)
    requires Sound(s, c) && c.filled == [] && 0 <= proceeds
    ensures var r := UpdateAccount(s, c.voter, proceeds, c.stake, force);
            && Keeps(r, c.(money := c.money - proceeds, stake := 0))
            && (r.Ok? ==> r.value.funds == PaidFunds(s, c.voter, proceeds))
  {
    hide Sound, ClaimOrder, Credit, ChangeVotes, Amount;
    ClaimOrderKeeps(s, c);
    var (t, filled, change) := ClaimOrder(s, c.voter);
    var d := c.(money := c.money + Amount(filled), stake := c.stake + change, filled := filled);
    CreditKeeps(t, d, proceeds + Amount(filled));
    CreditIs(t, c.voter, proceeds + Amount(filled), filled);
    var u := Credit(t, c.voter, proceeds + Amount(filled), filled);
    var e := c.(money := c.money - proceeds, stake := c.stake + change);
    assert Keeps(u, e);
    if u.Ok? {
      ChangeVotesKeeps(u.value, e, e.stake);
      ChangeVotesFrame(u.value, c.voter, e.stake);
    }
  }

  /** A credit of nothing changes nothing but the log. */
  function CreditTo(s: State, owner: Name, amount: nat, filled: seq<int>): State {
    LogCredit(s, owner, filled).(funds := if amount > 0 then s.funds[owner := At(s.funds, owner) + amount] else s.funds)
  }

  lemma CreditIs(s: State, owner: Name, amount: nat, filled: seq<int>)
    ensures Credit(s, owner, amount, filled) == Ok(CreditTo(s, owner, amount, filled))
  {
  }

  /** Settling an account touches no pool, no balance and no open order. */
  predicate OnlySettled(s: State, t: State, owner: Name) {
    && t.pool == s.pool && t.balances == s.balances && t.now == s.now && t.log.dust == s.log.dust
    && (if owner in s.orders && s.orders[owner].open then t.orders == s.orders else t.orders == s.orders - {owner})
  }

  lemma ClaimFrame(s: State, owner: Name)
    ensures OnlySettled(s, ClaimOrder(s, owner).0, owner)
  {
    assert owner !in s.orders ==> s.orders - {owner} == s.orders;
  }

  lemma CreditFrame(s: State, owner: Name, amount: int, filled: seq<int>)
    ensures var r := Credit(s, owner, amount, filled);
            r.Ok? ==> r.value == s.(funds := r.value.funds, log := s.log.(credits := r.value.log.credits))
  {
    hide Credited;
  }

  lemma ChangeVotesFrame(s: State, owner: Name, delta: int)
    ensures var r := ChangeVotes(s, owner, delta); r.Ok? ==> r.value == s.(staked := r.value.staked)
  {
  }

  lemma UpdateAccountFrame(s: State, owner: Name, proceeds: int, stake: int, force: bool)
    ensures var r := UpdateAccount(s, owner, proceeds, stake, force); r.Ok? ==> OnlySettled(s, r.value, owner)
  {
    hide ClaimOrder, Credit, ChangeVotes, Amount;
    ClaimFrame(s, owner);
    var (t, filled, change) := ClaimOrder(s, owner);
    CreditFrame(t, owner, proceeds + Amount(filled), filled);
    var u := Credit(t, owner, proceeds + Amount(filled), filled);
    if u.Ok? {
      ChangeVotesFrame(u.value, owner, stake + change);
    }
  }

  // ---------------------------------------------------------------------------------------------
  // Maintenance.

  lemma {:induction false} FillOrdersKeep(s: State, c: Context, queue: seq<Name>, max: nat)
    requires Sound(s, c) && !c.selling && c.filled == []
    ensures Keeps(FillOrders(s, queue, max), c)
    decreases max
  {
    hide Sound, FillQueued;
    if max > 0 && queue != [] && queue[0] in s.orders && s.orders[queue[0]].open {
      FillQueuedKeeps(s, c, queue[0]);
      var t := FillQueued(s, queue[0]);
      if t.Ok? {
        FillOrdersKeep(t.value, c, queue[1..], max - 1);
      }
    }
  }

  /** Maintenance leaves the books sound and whatever is pending pending. */
  lemma RunRexKeeps(s: State, c: Context, max: nat)
    requires Sound(s, c) && !c.selling && c.filled == []
    ensures Keeps(RunRex(s, max), c)
  {
    hide Sound, ChannelNamebids, ProcessLoans, FillOrders, Queue;
    ChannelNamebidsKeeps(s, c);
    var r1 := ChannelNamebids(s);
    if r1.Ok? {
      ProcessLoansKeep(r1.value, c, Cpu, max);
      var r2 := ProcessLoans(r1.value, Cpu, max);
      if r2.Ok? {
        ProcessLoansKeep(r2.value, c, Net, max);
        var r3 := ProcessLoans(r2.value, Net, max);
        if r3.Ok? {
          FillOrdersKeep(r3.value, c, Queue(r3.value.orders), max);
        }
      }
    }
  }

  /** Looking at the front of the index tells whether any order anywhere is open. */
  lemma FrontTells(orders: map<Name, Order>, now: int)
    requires ClockOk(now) && forall a :: a in orders ==> OrderOk(orders[a], now)
    ensures FrontOpen(orders) <==> exists a :: a in orders && orders[a].open
  {
    if orders != map[] {
      var keys := OrderKeys(orders);
      assert keys.Keys == orders.Keys;
      var f := SortedIndex.First(keys);
      if a :| a in orders && orders[a].open && a != f {
        BeforeLast(orders[a], now);
        assert SortedIndex.Before(keys, f, a);
      }
    }
  }

  lemma BeforeLast(o: Order, now: int)
    requires ClockOk(now) && o.time <= now
    ensures o.time as real < LAST
  {
    assert Sec(now) < END_OF_DAYS;
    assert now < 0x1_0000_0000 * 1_000_000;
  }

  /** Loans can be had exactly when the pool has shares and no sell order waits. */
  lemma LoansAvailableIff(s: State, c: Context)
    requires Sound(s, c)
    ensures LoansAvailable(s) <==> RexAvailable(s) && forall a :: a in s.orders ==> !s.orders[a].open
  {
    hide PoolOk, Later, Solvent, HoldingsOk, Covered, FundsOk, DelegationsOk, Agree, StakeBacked, Tracked, NoEarlySale,
         CreditedOnce, NoDust, FrontOpen;
    FrontTells(s.orders, s.now);
  }

  // ---------------------------------------------------------------------------------------------
  // Queueing and cancelling.

  lemma OpenOrderPut(s: State, c: Context, owner: Name, o: Order)
    requires Sound(s, c) && o.open && OrderOk(o, s.now) && owner in s.balances
    requires owner in s.orders ==> s.orders[owner].open
    requires o.requested <= s.balances[owner].matured && (c.selling ==> owner == c.voter)
    ensures Sound(s.(orders := s.orders[owner := o]), c.(selling := false))
  {
    hide PoolOk, Later, HoldingsOk, FundsOk, DelegationsOk, Agree, StakeBacked, NoEarlySale, NoDust, LoanFunds, Sum;
    SumPut(s.orders, ProceedsOf, owner, o);
    var orders := s.orders[owner := o];
    forall a
      ensures TrackedAt(s.staked, s.delegated, s.balances, orders, s.log.drift, c.voter, c.stake, a)
    {
      assert TrackedAt(s.staked, s.delegated, s.balances, s.orders, s.log.drift, c.voter, c.stake, a);
    }
    forall a
      ensures CreditedAt(orders, s.log.fills, s.log.credits, c.voter, c.filled, a)
    {
      assert CreditedAt(s.orders, s.log.fills, s.log.credits, c.voter, c.filled, a);
    }
  }

  /** Queueing more REX is sound once the whole order is covered. */
  lemma EnqueueKeeps(s: State, c: Context, rex: int)
    requires Sound(s, c) && 0 < rex && c.voter in s.balances
    requires c.voter in s.orders ==> s.orders[c.voter].open
    requires Enqueue(s, c.voter, rex).orders[c.voter].requested <= HoldingOf(s.balances, c.voter).matured
    ensures Sound(Enqueue(s, c.voter, rex), c.(selling := false))
  {
    hide PoolOk, Later, Solvent, HoldingsOk, Covered, FundsOk, DelegationsOk, Agree, StakeBacked, Tracked, NoEarlySale,
         CreditedOnce, NoDust;
    var o := Enqueue(s, c.voter, rex).orders[c.voter];
    assert c.voter in s.orders ==> OrderOk(s.orders[c.voter], s.now);
    OpenOrderPut(s, c, c.voter, o);
  }

  /** A seller whose order is still covered after the sale is done. */
  lemma StillCovered(s: State, c: Context)
    requires Sound(s, c) && InOrder(s, c.voter) <= HoldingOf(s.balances, c.voter).matured
    ensures Sound(s, c.(selling := false))
  {
    hide PoolOk, Later, Solvent, HoldingsOk, OrdersOk, FundsOk, DelegationsOk, Agree, StakeBacked, Tracked, NoEarlySale,
         CreditedOnce, NoDust;
  }

  lemma CancelOrderKeeps(s: State, c: Context, owner: Name)
    requires Sound(s, c)
    ensures Keeps(CancelOrder(s, owner), c)
  {
    hide PoolOk, Later, HoldingsOk, FundsOk, DelegationsOk, Agree, StakeBacked, NoEarlySale, NoDust, LoanFunds, Sum;
    SumDrop(s.orders, ProceedsOf, owner);
    if owner in s.orders && s.orders[owner].open {
      var orders := s.orders - {owner};
      forall a
        ensures TrackedAt(s.staked, s.delegated, s.balances, orders, s.log.drift, c.voter, c.stake, a)
      {
        assert TrackedAt(s.staked, s.delegated, s.balances, s.orders, s.log.drift, c.voter, c.stake, a);
      }
      forall a
        ensures CreditedAt(orders, s.log.fills, s.log.credits, c.voter, c.filled, a)
      {
        assert CreditedAt(s.orders, s.log.fills, s.log.credits, c.voter, c.filled, a);
      }
    }
  }

  // ---------------------------------------------------------------------------------------------
  // Moving REX between the buckets of one account.

  /** A row may be rewritten if it stays sound, on time, and covers the account's open order. */
  lemma SetBalanceKeeps(s: State, c: Context, b: Balance)
    requires Sound(s, c) && !c.selling && c.voter in s.balances
    requires b.rex == s.balances[c.voter].rex && Partitioned(b, Sec(s.now))
    requires InOrder(s, c.voter) <= b.matured
    requires OnTime(b, c.voter, s.log.purchases, s.log.sales, Sec(s.now))
    requires b.rex == 0 && c.voter !in s.log.dust ==> b.voteStake == 0
    ensures Sound(SetBalance(s, c.voter, b), c.(stake := c.stake + b.voteStake - s.balances[c.voter].voteStake))
  {
    hide PoolOk, Later, HoldingsOk, OrdersOk, Covered, FundsOk, DelegationsOk, Agree, StakeBacked, Tracked, NoEarlySale,
         CreditedOnce, NoDust, LoanFunds, Sum, Partitioned, OnTime;
    var owner := c.voter;
    DatedNow(s, c);
    HoldingsPut(RexIn(s.pool), s.balances, s.now, owner, b);
    OrdersPutBalance(s.orders, s.balances, s.now, owner, b);
    CoveredPut(s.orders, s.balances, Seller(c), owner, b);
    InStaked(s, c, owner);
    TrackedPut(s.staked, s.delegated, s.balances, s.orders, s.log.drift, owner, c.stake,
               c.stake + b.voteStake - s.balances[owner].voteStake, b);
    NoEarlySalePut(s.balances, s.log.purchases, s.log.sales, s.now, owner, b, s.log.purchases, s.log.sales);
    NoDustPut(s.balances, s.log.dust, owner, b);
  }

  lemma DatedNow(s: State, c: Context)
    requires Sound(s, c)
    ensures Dated(s.log.purchases, Sec(s.now)) && Maturity(Sec(s.now)) < END_OF_DAYS && Sec(s.now) < END_OF_DAYS
  {
    hide PoolOk, Later, Solvent, HoldingsOk, OrdersOk, Covered, FundsOk, DelegationsOk, Agree, StakeBacked, Tracked,
         CreditedOnce, NoDust;
    MaturityGrows(Sec(s.now), Sec(s.now));
  }

  lemma InStaked(s: State, c: Context, owner: Name)
    requires Sound(s, c) && owner in s.balances
    ensures owner in s.staked
  {
    hide PoolOk, Later, Solvent, HoldingsOk, OrdersOk, Covered, FundsOk, DelegationsOk, Agree, StakeBacked, NoEarlySale,
         CreditedOnce, NoDust;
  }

  /** All that is known of a row. */
  lemma RowSound(s: State, c: Context, owner: Name)
    requires Sound(s, c) && owner in s.balances
    ensures var b := s.balances[owner];
            && Partitioned(b, Sec(s.now))
            && OnTime(b, owner, s.log.purchases, s.log.sales, Sec(s.now))
            && (b.rex == 0 && owner !in s.log.dust ==> b.voteStake == 0)
            && (!c.selling ==> 0 <= InOrder(s, owner) <= b.matured)
  {
    hide PoolOk, Later, Solvent, FundsOk, DelegationsOk, Agree, StakeBacked, Tracked, CreditedOnce, Partitioned, OnTime, Dated;
    assert owner in s.orders ==> OrderOk(s.orders[owner], s.now);
    assert HoldingOf(s.balances, owner) == s.balances[owner];
    assert OnTime(HoldingOf(s.balances, owner), owner, s.log.purchases, s.log.sales, Sec(s.now));
    HoldingPartitioned(RexIn(s.pool), s.balances, s.now, owner);
    if owner in s.orders && s.orders[owner].open {
      assert s.orders[owner].requested <= HoldingOf(s.balances, owner).matured || c.selling;
    } else {
      HeldWithin(s.balances[owner], Sec(s.now));
    }
  }

  lemma MatureKeepsBooks(s: State, c: Context)
    requires Sound(s, c) && !c.selling && c.voter in s.balances
    ensures var m := Mature(s.balances[c.voter], Sec(s.now));
            && Sound(SetBalance(s, c.voter, m), c)
            && m.rex == s.balances[c.voter].rex && m.matured >= s.balances[c.voter].matured
  {
    hide Sound, Partitioned, Mature, Dated, SoldBy, BoughtBy, Sellable, Maturity;
    var b, sec := s.balances[c.voter], Sec(s.now);
    RowSound(s, c, c.voter);
    DatedNow(s, c);
    MaturedKeeps(b, sec, sec);
    var m := Mature(b, sec);
    forall due | sec <= due < Maturity(sec)
      ensures Sellable(m, due) <= Sellable(b, due)
    {
      MaturedKeeps(b, sec, due);
    }
    OnTimeMove(b, m, c.voter, s.log.purchases, s.log.sales, sec);
    SetBalanceKeeps(s, c, m);
  }

  lemma ConsolidateKeepsBooks(s: State, c: Context)
    requires Sound(s, c) && !c.selling && c.voter in s.balances
    ensures Sound(SetBalance(s, c.voter, Consolidate(s.balances[c.voter], InOrder(s, c.voter), Sec(s.now))), c)
  {
    hide Sound, Partitioned, Consolidate, Dated, SoldBy, BoughtBy, Sellable, Maturity, InOrder;
    var b, sec, inOrder := s.balances[c.voter], Sec(s.now), InOrder(s, c.voter);
    RowSound(s, c, c.voter);
    DatedNow(s, c);
    ConsolidateKeeps(b, inOrder, sec, sec);
    var m := Consolidate(b, inOrder, sec);
    forall due | sec <= due < Maturity(sec)
      ensures Sellable(m, due) <= Sellable(b, due)
    {
      ConsolidateKeeps(b, inOrder, sec, due);
    }
    OnTimeMove(b, m, c.voter, s.log.purchases, s.log.sales, sec);
    SetBalanceKeeps(s, c, m);
  }

  lemma MoveToSavingsKeepsBooks(s: State, c: Context, amount: int)
    requires Sound(s, c) && !c.selling && c.voter in s.balances && 0 < amount
    ensures var r := MoveToSavings(s.balances[c.voter], amount, InOrder(s, c.voter), Sec(s.now));
            r != Err(Broken) && r != Err(Endless) && (r.Ok? ==> Sound(SetBalance(s, c.voter, r.value), c))
  {
    hide Sound, Partitioned, MoveToSavings, Dated, SoldBy, BoughtBy, Sellable, Maturity, InOrder;
    var b, sec, inOrder := s.balances[c.voter], Sec(s.now), InOrder(s, c.voter);
    RowSound(s, c, c.voter);
    DatedNow(s, c);
    MoveToSavingsKeeps(b, amount, inOrder, sec, sec);
    var r := MoveToSavings(b, amount, inOrder, sec);
    if r.Ok? {
      forall due | sec <= due < Maturity(sec)
        ensures Sellable(r.value, due) <= Sellable(b, due)
      {
        MoveToSavingsKeeps(b, amount, inOrder, sec, due);
      }
      OnTimeMove(b, r.value, c.voter, s.log.purchases, s.log.sales, sec);
      SetBalanceKeeps(s, c, r.value);
    }
  }

  lemma MoveFromSavingsKeepsBooks(s: State, c: Context, amount: int)
    requires Sound(s, c) && !c.selling && c.voter in s.balances && 0 < amount
    ensures var r := MoveFromSavings(s.balances[c.voter], amount, Sec(s.now));
            r != Err(Broken) && r != Err(Endless) && (r.Ok? ==> Sound(SetBalance(s, c.voter, r.value), c))
  {
    hide Sound, Partitioned, MoveFromSavings, Dated, SoldBy, BoughtBy, Sellable, Maturity, InOrder;
    var b, sec := s.balances[c.voter], Sec(s.now);
    RowSound(s, c, c.voter);
    DatedNow(s, c);
    MoveFromSavingsKeeps(b, amount, sec, sec);
    var r := MoveFromSavings(b, amount, sec);
    if r.Ok? {
      forall due | sec <= due < Maturity(sec)
        ensures Sellable(r.value, due) <= Sellable(b, due)
      {
        MoveFromSavingsKeeps(b, amount, sec, due);
      }
      OnTimeMove(b, r.value, c.voter, s.log.purchases, s.log.sales, sec);
      SetBalanceKeeps(s, c, r.value);
    }
  }

  /** Revaluing an account's REX changes its stake by as much. */
  lemma RevalueKeepsBooks(s: State, c: Context, stake: int)
    requires Sound(s, c) && !c.selling && c.voter in s.balances && 0 <= stake
    requires s.balances[c.voter].rex == 0 ==> stake == 0
    ensures Sound(SetVoteStake(s, c.voter, stake), c.(stake := c.stake + stake - s.balances[c.voter].voteStake))
  {
    hide Sound, Dated, SoldBy, BoughtBy, Maturity, InOrder, Days, Total;
    var b := s.balances[c.voter];
    RowSound(s, c, c.voter);
    var m := b.(voteStake := stake);
    assert forall due :: Sellable(m, due) == Sellable(b, due);
    SetBalanceKeeps(s, c, m);
  }

  /** What an account's REX is worth now. */
  function PresentStake(s: State, owner: Name): int
    requires owner in s.balances
  {
    if RexAvailable(s) then Worth(s.pool.value, s.balances[owner].rex) else 0
  }

  lemma PresentStakeSound(s: State, c: Context, owner: Name)
    requires Sound(s, c) && owner in s.balances
    ensures 0 <= PresentStake(s, owner) && (s.balances[owner].rex == 0 ==> PresentStake(s, owner) == 0)
  {
    hide Later, Solvent, HoldingsOk, OrdersOk, Covered, FundsOk, DelegationsOk, Agree, StakeBacked, Tracked, NoEarlySale,
         CreditedOnce, NoDust, Worth, Lent;
    RexNonNegative(s, c, owner);
    if RexAvailable(s) {
      WorthNonNegative(s.pool.value, s.balances[owner].rex);
    }
  }
}
