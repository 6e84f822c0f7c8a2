/** Staking: what delegating, undelegating and refunds do to the books, and what time does. */
module ExchangeStaking {
  import opened Basics
  import opened Ledger
  import opened RexPool
  import opened RexBalance
  import opened Exchange
  import opened ExchangeBooks
  import opened ExchangeParts
  import opened ExchangeShares
  import opened ExchangeOrders
  import opened Sums

  lemma DelegationOk(d: Delegations, from: Name, to: Name, w: Weights)
    requires DelegationsOk(d) && 0 <= w.net && 0 <= w.cpu
    ensures DelegationsOk(PutWeights(d, from, to, w))
    ensures var v := WeightsOf(d, from, to); 0 <= v.net && 0 <= v.cpu
  {
  }

  lemma TrackedDelegation(
    staked: map<Name, int>, d: Delegations, balances: map<Name, Balance>, orders: map<Name, Order>,
    drift: map<Name, int>, voter: Name, stake: int, to: Name, w: Weights, later: int)
    requires Tracked(staked, d, balances, orders, drift, voter, stake)
    requires var v := WeightsOf(d, voter, to); later == stake + w.net + w.cpu - v.net - v.cpu
    ensures Tracked(staked, PutWeights(d, voter, to, w), balances, orders, drift, voter, later)
  {
    hide PutWeights, Sum;
    var e := PutWeights(d, voter, to, w);
    forall a
      ensures TrackedAt(staked, e, balances, orders, drift, voter, later, a)
    {
      assert TrackedAt(staked, d, balances, orders, drift, voter, stake, a);
      DelegationSums(d, voter, to, w, a);
    }
  }

  /** What a changed delegation of the voter does to the books that look at bandwidth and votes. */
  lemma DelegationBooks(s: State, c: Context, to: Name, w: Weights)
    requires Sound(s, c) && 0 <= w.net && 0 <= w.cpu
    ensures var v := WeightsOf(s.delegated, c.voter, to);
            var e := PutWeights(s.delegated, c.voter, to, w);
            var r := Limits(s.resources, to, w.net - v.net, w.cpu - v.cpu);
            var delta := w.net + w.cpu - v.net - v.cpu;
            && DelegationsOk(e)
            && r.Ok? && Agree(r.value, e, s.loans)
            && Tracked(s.staked, e, s.balances, s.orders, s.log.drift, c.voter, c.stake + delta)
            && Sum(e, BothOf) == Sum(s.delegated, BothOf) + delta
  {
    hide PoolOk, Later, Solvent, HoldingsOk, OrdersOk, Covered, FundsOk, Agree, StakeBacked, Tracked, NoEarlySale, CreditedOnce,
         NoDust, PutWeights, Limits, Shifted, Sum, DelegationsOk;
    var v := WeightsOf(s.delegated, c.voter, to);
    var e := PutWeights(s.delegated, c.voter, to, w);
    DelegationOk(s.delegated, c.voter, to, w);
    DelegationShifts(s.delegated, s.loans, c.voter, to, w);
    SoundStakes(s, c);
    LimitsFollow(s.resources, s.delegated, s.loans, e, s.loans, to, w.net - v.net, w.cpu - v.cpu);
    DelegationSums(s.delegated, c.voter, to, w, c.voter);
    TrackedDelegation(s.staked, s.delegated, s.balances, s.orders, s.log.drift, c.voter, c.stake, to, w,
                      c.stake + w.net + w.cpu - v.net - v.cpu);
  }

  lemma SoundStakes(s: State, c: Context)
    requires Sound(s, c)
    ensures StakesOk(s.loans.cpu) && StakesOk(s.loans.net)
  {
    hide Later, Solvent, HoldingsOk, OrdersOk, Covered, FundsOk, Agree, StakeBacked, Tracked, NoEarlySale, CreditedOnce,
         NoDust, DelegationsOk, Lent, Balanced;
  }

  /** Delegated tokens are there to be moved. */
  lemma DelegatedBacked(s: State, c: Context, from: Name, to: Name)
    requires Sound(s, c)
    ensures var v := WeightsOf(s.delegated, from, to); 0 <= v.net && 0 <= v.cpu && v.net + v.cpu <= At(s.tokens, STAKE_ACCOUNT)
  {
    hide PoolOk, Later, Solvent, HoldingsOk, OrdersOk, Covered, FundsOk, Agree, Tracked, NoEarlySale, CreditedOnce, NoDust, Sum;
    SumBounds(s.delegated, BothOf);
    SumBounds(s.refunds, RefundOf);
    var k := Edge(from, to);
    assert k in s.delegated ==> BothOf(k, s.delegated[k]) == s.delegated[k].net + s.delegated[k].cpu;
  }

  /** Undelegating into the exchange: tokens arrive there, and the stake they carried is pending. */
  lemma TakeDelegatedKeeps(s: State, c: Context, receiver: Name, net: int, cpu: int)
    requires Sound(s, c) && 0 <= net && 0 <= cpu && 0 < net + cpu
    ensures Keeps(TakeDelegated(s, c.voter, receiver, net, cpu),
                  c.(money := c.money + net + cpu, stake := c.stake - net - cpu))
    ensures var r := TakeDelegated(s, c.voter, receiver, net, cpu); r.Ok? ==> r.value.staked == s.staked
  {
    hide PoolOk, Later, HoldingsOk, OrdersOk, Covered, FundsOk, Agree, Tracked, NoEarlySale, CreditedOnce, NoDust, Sum,
         PutWeights, Limits, DelegationsOk, Owed;
    var v := WeightsOf(s.delegated, c.voter, receiver);
    DelegatedBacked(s, c, c.voter, receiver);
    if Edge(c.voter, receiver) in s.delegated && net <= v.net && cpu <= v.cpu {
      DelegationBooks(s, c, receiver, Weights(v.net - net, v.cpu - cpu));
    }
  }

  // ---------------------------------------------------------------------------------------------
  // Refunds.

  predicate RefundsOk(refunds: map<Name, Refund>) {
    forall a :: a in refunds ==> 0 <= refunds[a].net && 0 <= refunds[a].cpu
  }

  predicate SameSign(net: int, cpu: int) {
    (0 <= net && 0 <= cpu) || (net <= 0 && cpu <= 0)
  }

  lemma NotOpposite(net: int, cpu: int)
    requires Abs(net + cpu) >= Abs(net) && Abs(net + cpu) >= Abs(cpu)
    ensures SameSign(net, cpu)
  {
  }

  /** For each resource the pending refund is drawn on first, and tokens are due only for the rest. */
  lemma DrawsFirst(pending: int, delta: int)
    requires 0 <= pending
    ensures var (left, due) := Draw(pending, delta);
            && 0 <= left && 0 <= due && (left == 0 || due == 0)
            && due - left == delta - pending
  {
  }

  /** What is staked anew comes out of the refund or is due; what is unstaked goes into it. */
  lemma SettleBalances(refunds: map<Name, Refund>, from: Name, net: int, cpu: int, sec: int)
    requires RefundsOk(refunds) && SameSign(net, cpu)
    ensures var (after, due) := Settle(refunds, from, net, cpu, sec);
            && RefundsOk(after)
            && 0 <= due && (net <= 0 && cpu <= 0 ==> due == 0)
            && Sum(after, RefundOf) == Sum(refunds, RefundOf) - net - cpu + due
            && (forall a :: a != from ==> (a in after <==> a in refunds) && (a in refunds ==> after[a] == refunds[a]))
            && (from in after ==> 0 < after[from].net + after[from].cpu)
  {
    hide Sum;
    var (after, due) := Settle(refunds, from, net, cpu, sec);
    SumDrop(refunds, RefundOf, from);
    if from in after {
      SumPut(refunds, RefundOf, from, after[from]);
    }
  }

  lemma SettlementBalances(s: State, from: Name, receiver: Name, net: int, cpu: int, transfer: bool)
    requires RefundsOk(s.refunds) && SameSign(net, cpu)
    ensures var settled := Settlement(s, from, receiver, net, cpu, transfer);
            && RefundsOk(settled.0) && 0 <= settled.1
            && Sum(settled.0, RefundOf) == Sum(s.refunds, RefundOf) - net - cpu + settled.1
  {
    hide Settle, Sum;
    SettleBalances(s.refunds, from, net, cpu, Sec(s.now));
  }

  /** Paying what is due makes up for what is staked or set aside beyond the tokens held. */
  lemma PayStake(s: State, source: Name, due: int)
    requires source != REX_ACCOUNT && source != STAKE_ACCOUNT && 0 <= due && RefundsOk(s.refunds)
    requires At(s.tokens, STAKE_ACCOUNT) + due == Sum(s.delegated, BothOf) + Sum(s.refunds, RefundOf)
    ensures var r := if 0 < due then Pay(s, source, STAKE_ACCOUNT, due, Rejected) else Ok(s);
            && r != Err(Broken) && r != Err(Endless)
            && (r.Ok? ==>
                  && r.value == s.(tokens := r.value.tokens)
                  && StakeBacked(r.value.tokens, s.delegated, s.refunds)
                  && At(r.value.tokens, REX_ACCOUNT) == At(s.tokens, REX_ACCOUNT))
  {
    hide Sum;
  }

  /** Tokens staked and due for refund stay backed, whichever way a stake change is settled. */
  lemma SettleStakeBacked(s: State, e: Delegations, resources: map<Name, Resources>, source: Name, from: Name, receiver: Name,
                          net: int, cpu: int, transfer: bool)
    requires StakeBacked(s.tokens, s.delegated, s.refunds) && Sum(e, BothOf) == Sum(s.delegated, BothOf) + net + cpu
    requires SameSign(net, cpu) && source != REX_ACCOUNT && source != STAKE_ACCOUNT
    ensures var t := s.(delegated := e, resources := resources);
            var r := SettleStake(t, source, from, receiver, net, cpu, transfer);
            && r != Err(Broken) && r != Err(Endless)
            && (r.Ok? ==>
                  && r.value == t.(tokens := r.value.tokens, refunds := r.value.refunds,
                                   log := t.log.(unstaked := r.value.log.unstaked))
                  && StakeBacked(r.value.tokens, e, r.value.refunds)
                  && At(r.value.tokens, REX_ACCOUNT) == At(s.tokens, REX_ACCOUNT))
  {
    hide Settlement, Sum, Pay, LogUnstaking, StakeBacked;
    var t := s.(delegated := e, resources := resources);
    SettlementBacks(s.tokens, s.delegated, e, t, from, receiver, net, cpu, transfer);
    var settled := Settlement(t, from, receiver, net, cpu, transfer);
    LogUnstakingFrame(t.(refunds := settled.0), from, -(net + cpu));
    PayStake(LogUnstaking(t.(refunds := settled.0), from, -(net + cpu)), source, settled.1);
  }

  lemma SettlementBacks(tokens: Tokens, d: Delegations, e: Delegations, t: State, from: Name, receiver: Name,
                        net: int, cpu: int, transfer: bool)
    requires StakeBacked(tokens, d, t.refunds) && Sum(e, BothOf) == Sum(d, BothOf) + net + cpu && SameSign(net, cpu)
    requires t.tokens == tokens
    ensures var settled := Settlement(t, from, receiver, net, cpu, transfer);
            && 0 <= settled.1 && RefundsOk(settled.0)
            && At(tokens, STAKE_ACCOUNT) + settled.1 == Sum(e, BothOf) + Sum(settled.0, RefundOf)
  {
    hide Settlement, Sum;
    SettlementBalances(t, from, receiver, net, cpu, transfer);
  }

  lemma LogUnstakingFrame(s: State, owner: Name, amount: int)
    ensures var t := LogUnstaking(s, owner, amount); t == s.(log := s.log.(unstaked := t.log.unstaked))
  {
  }

  /** A stake change entered in the delegations, totals and refunds; the vote is still to follow. */
  lemma StakeBooks(s: State, c: Context, source: Name, receiver: Name, net: int, cpu: int, transfer: bool)
    requires Sound(s, c) && SameSign(net, cpu) && source != REX_ACCOUNT && source != STAKE_ACCOUNT
    ensures var r1 := Delegated(s, c.voter, receiver, net, cpu);
            && r1 != Err(Broken) && r1 != Err(Endless)
            && (r1.Ok? ==>
                  var r2 := UpdateLimits(r1.value, receiver, net, cpu);
                  && r2.Ok?
                  && Keeps(SettleStake(r2.value, source, c.voter, receiver, net, cpu, transfer), c.(stake := c.stake + net + cpu)))
  {
    hide PoolOk, Later, HoldingsOk, OrdersOk, Covered, FundsOk, Agree, Tracked, StakeBacked, NoEarlySale, CreditedOnce, NoDust,
         Sum, PutWeights, Limits, DelegationsOk, Owed, SettleStake;
    var v := WeightsOf(s.delegated, c.voter, receiver);
    var w := Weights(v.net + net, v.cpu + cpu);
    if 0 <= w.net && 0 <= w.cpu {
      DelegationBooks(s, c, receiver, w);
      var e := PutWeights(s.delegated, c.voter, receiver, w);
      SettleStakeBacked(s, e, Limits(s.resources, receiver, net, cpu).value, source, c.voter, receiver, net, cpu, transfer);
    }
  }

  /** The vote stake of the voter's REX is brought up to date together with its stake. */
  lemma UpdateRexStakeKeeps(s: State, c: Context)
    requires Sound(s, c) && !c.selling
    ensures Sound(UpdateRexStake(s, c.voter), c)
  {
    hide Sound, Worth;
    if c.voter in s.balances && RexAvailable(s) {
      PresentStakeSound(s, c, c.voter);
      var stake := PresentStake(s, c.voter);
      var change := stake - s.balances[c.voter].voteStake;
      RevalueKeepsBooks(s, c, stake);
      InStaked(s, c, c.voter);
      if change != 0 {
        StakedPutKeeps(SetVoteStake(s, c.voter, stake), c.(stake := c.stake + change), change);
      }
    }
  }

  /** Staking and unstaking: every token staked stays accounted for. */
  lemma ChangeBwKeeps(s: State, c: Context, source: Name, receiver: Name, net: int, cpu: int, transfer: bool)
    requires Sound(s, c) && !c.selling && c.voter == (if transfer then receiver else source)
    requires source != REX_ACCOUNT && source != STAKE_ACCOUNT
    ensures Keeps(ChangeBw(s, source, receiver, net, cpu, transfer), c)
  {
    hide Sound, Delegated, UpdateLimits, SettleStake, UpdateRexStake, ChangeVotes, SameSign;
    if Abs(net + cpu) >= Abs(net) && Abs(net + cpu) >= Abs(cpu) {
      NotOpposite(net, cpu);
      StakeBooks(s, c, source, receiver, net, cpu, transfer);
      var r1 := Delegated(s, c.voter, receiver, net, cpu);
      if r1.Ok? {
        var r2 := UpdateLimits(r1.value, receiver, net, cpu);
        var r3 := SettleStake(r2.value, source, c.voter, receiver, net, cpu, transfer);
        if r3.Ok? {
          var d := c.(stake := c.stake + net + cpu);
          UpdateRexStakeKeeps(r3.value, d);
          ChangeVotesKeeps(UpdateRexStake(r3.value, c.voter), d, net + cpu);
        }
      }
    }
  }

  /** A refund pays out what was set aside for it. */
  lemma ClaimRefundKeeps(s: State, c: Context, owner: Name)
    requires Sound(s, c) && owner != REX_ACCOUNT && owner != STAKE_ACCOUNT
    ensures Keeps(ClaimRefund(s, owner), c)
  {
    hide PoolOk, Later, HoldingsOk, OrdersOk, Covered, FundsOk, Agree, Tracked, NoEarlySale, CreditedOnce, NoDust, Sum, Owed;
    SumDrop(s.refunds, RefundOf, owner);
    SumBounds(s.refunds, RefundOf);
    SumBounds(s.delegated, BothOf);
    assert owner in s.refunds ==> RefundOf(owner, s.refunds[owner]) <= Sum(s.refunds, RefundOf);
  }

  // ---------------------------------------------------------------------------------------------
  // Rows that come and go, and time.

  lemma DropFundKeeps(s: State, c: Context, owner: Name)
    requires Sound(s, c)
    ensures Sound(DropFund(s, owner), c)
  {
    hide PoolOk, Later, HoldingsOk, OrdersOk, Covered, DelegationsOk, Agree, StakeBacked, Tracked, NoEarlySale, CreditedOnce,
         NoDust, Sum, LoanFunds, Borrows;
    SumDrop(s.funds, AmountOf, owner);
  }

  lemma TrackedDrop(
    staked: map<Name, int>, d: Delegations, balances: map<Name, Balance>, orders: map<Name, Order>,
    drift: map<Name, int>, voter: Name, stake: int, owner: Name)
    requires Tracked(staked, d, balances, orders, drift, voter, stake) && owner in balances
    ensures Tracked(staked, d, balances - {owner}, orders, drift[owner := At(drift, owner) + balances[owner].voteStake], voter, stake)
  {
    var rest, more := balances - {owner}, drift[owner := At(drift, owner) + balances[owner].voteStake];
    forall a
      ensures TrackedAt(staked, d, rest, orders, more, voter, stake, a)
    {
      assert TrackedAt(staked, d, balances, orders, drift, voter, stake, a);
    }
  }

  /** An account without REX holds nothing in any bucket. */
  lemma NothingLeft(b: Balance, sec: int, due: int)
    requires Partitioned(b, sec) && b.rex == 0 && due < END_OF_DAYS
    ensures Sellable(b, due) == 0
  {
    Parts(b, sec, due);
  }

  lemma NoEarlySaleDrop(shares: int, balances: map<Name, Balance>, purchases: seq<Purchase>, sales: seq<Sale>, now: int, owner: Name)
    requires NoEarlySale(balances, purchases, sales, now) && HoldingsOk(shares, balances, now)
    requires owner in balances && balances[owner].rex == 0
    ensures NoEarlySale(balances - {owner}, purchases, sales, now)
  {
    hide Dated, SoldBy, BoughtBy, Sellable, Partitioned;
    var rest, sec := balances - {owner}, Sec(now);
    forall a
      ensures OnTime(HoldingOf(rest, a), a, purchases, sales, sec)
    {
      assert OnTime(HoldingOf(balances, a), a, purchases, sales, sec);
      if a == owner {
        forall due | sec <= due < END_OF_DAYS
          ensures Sellable(HoldingOf(rest, a), due) == Sellable(HoldingOf(balances, a), due)
        {
          NothingLeft(balances[owner], sec, due);
          NothingHeld(due);
        }
      } else {
        assert HoldingOf(rest, a) == HoldingOf(balances, a);
      }
    }
  }

  lemma NothingHeld(due: int)
    ensures Sellable(Balance(0, 0, 0, []), due) == 0
  {
  }

  /** A balance can be dropped: an account without REX has no order. */
  lemma DropBalanceKeeps(s: State, c: Context, owner: Name)
    requires Sound(s, c) && !c.selling && (owner in s.orders ==> s.orders[owner].open)
    ensures Keeps(DropBalance(s, owner), c)
  {
    hide PoolOk, Later, Solvent, HoldingsOk, FundsOk, DelegationsOk, Agree, StakeBacked, Tracked, NoEarlySale, CreditedOnce;
    if owner in s.balances && s.balances[owner].rex == 0 {
      RexNonNegative(s, c, owner);
      assert owner in s.orders ==> OrderOk(s.orders[owner], s.now);
      assert owner !in s.orders;
      NoEarlySaleDrop(RexIn(s.pool), s.balances, s.log.purchases, s.log.sales, s.now, owner);
      TrackedDrop(s.staked, s.delegated, s.balances, s.orders, s.log.drift, c.voter, c.stake, owner);
      HoldingsDrop(RexIn(s.pool), s.balances, s.now, owner);
    }
  }

  lemma HoldingsDrop(shares: int, balances: map<Name, Balance>, now: int, owner: Name)
    requires HoldingsOk(shares, balances, now) && owner in balances && balances[owner].rex == 0
    ensures HoldingsOk(shares, balances - {owner}, now)
  {
    hide Partitioned;
    SumDrop(balances, RexOf, owner);
  }

  lemma RegisterKeeps(s: State, c: Context, owner: Name)
    requires Sound(s, c)
    ensures Sound(Register(s, owner), c)
  {
    hide PoolOk, Later, Solvent, HoldingsOk, OrdersOk, Covered, FundsOk, DelegationsOk, Agree, StakeBacked, NoEarlySale,
         CreditedOnce, NoDust;
    if owner !in s.staked {
      var staked := s.staked[owner := 0];
      forall a
        ensures TrackedAt(staked, s.delegated, s.balances, s.orders, s.log.drift, c.voter, c.stake, a)
      {
        assert TrackedAt(s.staked, s.delegated, s.balances, s.orders, s.log.drift, c.voter, c.stake, a);
      }
    }
  }

  lemma SetRamKeeps(s: State, c: Context, owner: Name, bytes: nat)
    requires Sound(s, c)
    ensures Sound(SetRam(s, owner, bytes), c)
  {
    hide PoolOk, Later, Solvent, HoldingsOk, OrdersOk, Covered, FundsOk, DelegationsOk, Tracked, StakeBacked, NoEarlySale,
         CreditedOnce, NoDust, Sources;
    var resources := SetRam(s, owner, bytes).resources;
    forall kind: Kind, r
      ensures AgreeAt(resources, s.delegated, s.loans, kind, r)
    {
      assert AgreeAt(s.resources, s.delegated, s.loans, kind, r);
    }
  }

  /** Time may pass: what was due stays due. */
  lemma AdvanceKeeps(s: State, c: Context, now: int)
    requires Sound(s, c)
    ensures Keeps(Advance(s, now), c)
  {
    hide PoolOk, Later, Solvent, HoldingsOk, Covered, FundsOk, DelegationsOk, Tracked, Agree, StakeBacked, NoEarlySale,
         CreditedOnce, NoDust, Maturity;
    if s.now <= now {
      HoldingsLater(RexIn(s.pool), s.balances, s.now, now);
      NoEarlySaleLater(s.balances, s.log.purchases, s.log.sales, s.now, now);
      OrdersLater(s.orders, s.balances, s.now, now);
    }
  }

  lemma OrdersLater(orders: map<Name, Order>, balances: map<Name, Balance>, now: int, later: int)
    requires OrdersOk(orders, balances, now) && now <= later
    ensures OrdersOk(orders, balances, later)
  {
    forall a | a in orders
      ensures OrderOk(orders[a], later)
    {
      assert OrderOk(orders[a], now);
    }
  }

  lemma HoldingsLater(shares: int, balances: map<Name, Balance>, now: int, later: int)
    requires HoldingsOk(shares, balances, now) && now <= later
    ensures HoldingsOk(shares, balances, later)
  {
    hide Partitioned, Sum;
    forall a | a in balances
      ensures Partitioned(balances[a], Sec(later))
    {
      LaterStillPartitioned(balances[a], Sec(now), Sec(later));
    }
  }

  lemma NoEarlySaleLater(balances: map<Name, Balance>, purchases: seq<Purchase>, sales: seq<Sale>, now: int, later: int)
    requires NoEarlySale(balances, purchases, sales, now) && now <= later
    ensures NoEarlySale(balances, purchases, sales, later)
  {
    hide Maturity, Sellable, SoldBy, BoughtBy;
    var sec, soon := Sec(now), Sec(later);
    assert sec <= soon;
    MaturityGrows(sec, soon);
    forall a
      ensures OnTime(HoldingOf(balances, a), a, purchases, sales, soon)
    {
      assert OnTime(HoldingOf(balances, a), a, purchases, sales, sec);
    }
  }
}
