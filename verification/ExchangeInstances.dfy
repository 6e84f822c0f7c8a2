/** A run of the exchange from a fresh chain in which a stake drifts, and what that leads to. */
module ExchangeInstances {
  import opened Basics
  import opened Ledger
  import opened RexPool
  import opened RexBalance
  import opened Exchange
  import opened ExchangeBooks
  import opened ExchangeParts
  import opened ExchangeLoans
  import opened ExchangeShares
  import opened ExchangeOrders
  import opened ExchangeStaking
  import opened ExchangeRuns
  import opened ExchangeHistory
  import opened ExchangeDrift

  const ALICE: Name := 20
  const BOB: Name := 21

  /** A run is known by its states. */
  lemma {:induction false} RunAll(s: State, actions: seq<Action>, states: seq<State>)
    requires |states| == |actions| + 1 && states[0] == s
    requires forall i :: 0 <= i < |actions| ==> Step(states[i], actions[i]) == Ok(states[i + 1])
    ensures Run(s, actions) == states[|actions|]
    decreases |actions|
  {
    hide Step;
    if actions != [] {
      var n := |actions| - 1;
      RunAll(s, actions[..n], states[..n + 1]);
      assert Step(states[n], actions[n]) == Ok(states[n + 1]);
    }
  }

  // ---------------------------------------------------------------------------------------------
  // What actions do while no loan is open and no order waits.

  predicate Calm(s: State) {
    s.orders == map[] && s.loans == Loans(map[], map[]) && (s.pool.Some? ==> s.pool.value.namebid == 0)
  }

  lemma NothingToRun(s: State, max: nat)
    requires Calm(s) && s.pool.Some?
    ensures RunRex(s, max) == Ok(s)
  {
    assert OrderKeys(s.orders) == map[];
    assert Queue(s.orders) == [];
    assert ProcessLoans(s, Cpu, max) == Ok(s) && ProcessLoans(s, Net, max) == Ok(s);
    assert FillOrders(s, [], max) == Ok(s);
  }

  /** Settling an account that has no order. */
  lemma SettleIs(s: State, owner: Name, proceeds: nat, stake: int, force: bool)
    requires owner !in s.orders && 0 <= At(s.staked, owner) + stake
    ensures UpdateAccount(s, owner, proceeds, stake, force)
            == Ok(s.(funds := if proceeds > 0 then s.funds[owner := At(s.funds, owner) + proceeds] else s.funds,
                     staked := if force || stake != 0 then s.staked[owner := At(s.staked, owner) + stake] else s.staked))
  {
    hide Credit;
    CreditIs(s, owner, proceeds, []);
  }

  lemma SettleRefused(s: State, owner: Name, proceeds: nat, stake: int)
    requires Calm(s) && At(s.staked, owner) + stake < 0 && stake != 0
    ensures UpdateAccount(s, owner, proceeds, stake, false) == Err(Rejected)
  {
    assert LogCredit(s, owner, []) == s;
  }

  function Sent(tokens: Tokens, from: Name, to: Name, amount: int): Tokens {
    tokens[from := At(tokens, from) - amount][to := At(tokens, to) + amount]
  }

  lemma DepositIs(s: State, owner: Name, amount: int)
    requires 0 < amount <= At(s.tokens, owner) && owner != REX_ACCOUNT
    ensures Step(s, Deposit(owner, amount))
            == Ok(Record(s, owner, PaidIn, amount).(tokens := Sent(s.tokens, owner, REX_ACCOUNT, amount),
                                                    funds := s.funds[owner := At(s.funds, owner) + amount]))
  {
  }

  /** What the buyer's row becomes. */
  function RowBought(s: State, owner: Name, received: int, stake: int): Balance {
    var b := HoldingOf(s.balances, owner);
    AddPurchase(b, received, Sec(s.now)).(rex := b.rex + received, voteStake := stake)
  }

  function StakeBought(s: State, owner: Name, payment: int, q: Pool, received: int): int
    requires q.rex != 0
  {
    if owner !in s.balances then payment else Worth(q, HoldingOf(s.balances, owner).rex + received)
  }

  lemma BuyInIs(s: State, owner: Name, payment: int, q: Pool, received: int) returns (history: Log)
    requires Buy(s.pool, payment) == Ok((q, received)) && q.rex != 0
    ensures var stake := StakeBought(s, owner, payment, q, received);
            BuyIn(s, owner, payment)
            == Ok((s.(pool := Some(q), balances := s.balances[owner := RowBought(s, owner, received, stake)], log := history),
                   stake - HoldingOf(s.balances, owner).voteStake))
  {
    hide Buy, Worth, AddPurchase, Maturity;
    history := BuyIn(s, owner, payment).value.0.log;
  }

  lemma PurchaseIs(s: State, owner: Name, amount: int, q: Pool, received: int, stake: int) returns (history: Log)
    requires Calm(s) && owner in s.funds && 0 < amount <= s.funds[owner] && owner in s.staked
    requires Buy(s.pool, amount) == Ok((q, received)) && q.rex != 0 && q.namebid == 0
    requires stake == StakeBought(s, owner, amount, q, received)
    requires stake != HoldingOf(s.balances, owner).voteStake
    requires 0 <= s.staked[owner] + stake - HoldingOf(s.balances, owner).voteStake
    ensures Step(s, ActBuyRex(owner, amount, true))
            == Ok(s.(pool := Some(q), funds := s.funds[owner := s.funds[owner] - amount],
                     balances := s.balances[owner := RowBought(s, owner, received, stake)],
                     staked := s.staked[owner := s.staked[owner] + stake - HoldingOf(s.balances, owner).voteStake], log := history))
  {
    hide Buy, Worth, RowBought, StakeBought, BuyIn, RunRex, UpdateAccount;
    var t := Record(s.(funds := s.funds[owner := s.funds[owner] - amount]), owner, ForShares, amount);
    history := BuyInIs(t, owner, amount, q, received);
    SameBought(s, t, owner, amount, q, received);
    var u := BuyIn(t, owner, amount).value.0;
    NothingToRun(u, 2);
    SettleIs(u, owner, 0, stake - HoldingOf(s.balances, owner).voteStake, false);
  }

  lemma SameBought(s: State, t: State, owner: Name, payment: int, q: Pool, received: int)
    requires t.balances == s.balances && t.now == s.now && q.rex != 0
    ensures StakeBought(t, owner, payment, q, received) == StakeBought(s, owner, payment, q, received)
    ensures forall stake :: RowBought(t, owner, received, stake) == RowBought(s, owner, received, stake)
  {
    hide Worth, AddPurchase;
  }

  lemma FeeIs(s: State, from: Name, amount: int)
    requires RexAvailable(s) && 0 < amount <= At(s.tokens, from) && from != REX_ACCOUNT
    ensures Step(s, ActFee(from, amount))
            == Ok(s.(pool := Some(Channel(s.pool.value, amount)), tokens := Sent(s.tokens, from, REX_ACCOUNT, amount)))
  {
  }

  lemma TimeIs(s: State, owner: Name, now: int)
    requires s.now <= now && ClockOk(now)
    ensures Step(s, ActTime(owner, now)) == Ok(s.(now := now))
  {
    hide Maturity;
  }

  /** Staking NET bandwidth for oneself. */
  lemma StakeIs(s: State, owner: Name, net: int) returns (totals: map<Name, Resources>)
    requires Steady(s) && owner !in s.refunds && owner !in s.balances
    requires owner != STAKE_ACCOUNT && owner != REX_ACCOUNT && 0 < net <= At(s.tokens, owner) && 0 <= At(s.staked, owner)
    ensures var w := WeightsOf(s.delegated, owner, owner);
            ChangeBw(s, owner, owner, net, 0, false)
            == Ok(s.(delegated := PutWeights(s.delegated, owner, owner, Weights(w.net + net, w.cpu)), resources := totals,
                     tokens := Sent(s.tokens, owner, STAKE_ACCOUNT, net),
                     staked := s.staked[owner := At(s.staked, owner) + net]))
  {
    hide Sound, PutWeights, UpdateLimits, SettleStake;
    var c := Idle(s, owner);
    AnyVoter(s, Idle(s, 0), owner);
    StakeBooks(s, c, owner, owner, net, 0, false);
    DelegationsNonNegative(s, c, owner);
    var t := Delegated(s, owner, owner, net, 0).value;
    var u := UpdateLimits(t, owner, net, 0).value;
    totals := u.resources;
    UpdateLimitsFrame(t, owner, net, 0);
    StakePaid(u, owner, net);
  }

  lemma StakePaid(s: State, owner: Name, net: int)
    requires owner !in s.refunds && owner != STAKE_ACCOUNT && 0 < net <= At(s.tokens, owner)
    ensures SettleStake(s, owner, owner, owner, net, 0, false) == Ok(s.(tokens := Sent(s.tokens, owner, STAKE_ACCOUNT, net)))
  {
  }

  lemma DelegationsNonNegative(s: State, c: Context, owner: Name)
    requires Sound(s, c)
    ensures var w := WeightsOf(s.delegated, owner, owner); 0 <= w.net && 0 <= w.cpu
  {
  }

  lemma TakeIs(s: State, owner: Name, net: int) returns (totals: map<Name, Resources>)
    requires Steady(s) && 0 < net && Edge(owner, owner) in s.delegated && net <= s.delegated[Edge(owner, owner)].net
    ensures var w := s.delegated[Edge(owner, owner)];
            TakeDelegated(s, owner, owner, net, 0)
            == Ok(s.(delegated := PutWeights(s.delegated, owner, owner, Weights(w.net - net, w.cpu)), resources := totals,
                     tokens := Sent(s.tokens, STAKE_ACCOUNT, REX_ACCOUNT, net)))
  {
    hide Sound, PutWeights;
    AnyVoter(s, Idle(s, 0), owner);
    DelegationsNonNegative(s, Idle(s, 0), owner);
    TakeDelegatedKeeps(s, Idle(s, owner), owner, net, 0);
    totals := TakeDelegated(s, owner, owner, net, 0).value.resources;
  }

  /** Unstaking one's own NET bandwidth into REX. */
  lemma UnstakeIs(s: State, owner: Name, net: int, q: Pool, received: int, stake: int)
    returns (totals: map<Name, Resources>, history: Log)
    requires Steady(s) && Calm(s) && 0 < net && Edge(owner, owner) in s.delegated && net <= s.delegated[Edge(owner, owner)].net
    requires owner in s.staked && 0 <= s.staked[owner] && q.rex != 0 && q.namebid == 0
    requires Buy(s.pool, net) == Ok((q, received)) && stake == StakeBought(s, owner, net, q, received)
    ensures var w := s.delegated[Edge(owner, owner)];
            Step(s, ActUnstakeToRex(owner, owner, net, 0, true))
            == Ok(s.(delegated := PutWeights(s.delegated, owner, owner, Weights(w.net - net, w.cpu)), resources := totals,
                     tokens := Sent(s.tokens, STAKE_ACCOUNT, REX_ACCOUNT, net),
                     pool := Some(q), balances := s.balances[owner := RowBought(s, owner, received, stake)],
                     staked := s.staked[owner := s.staked[owner]], log := history))
  {
    hide Sound, PutWeights, TakeDelegated, Buy, Worth, RowBought, StakeBought, BuyIn, RunRex, UpdateAccount;
    totals := TakeIs(s, owner, net);
    var t := TakeDelegated(s, owner, owner, net, 0).value;
    history := BuyInIs(t, owner, net, q, received);
    SameBought(s, t, owner, net, q, received);
    var (u, change) := BuyIn(t, owner, net).value;
    var v := AddDrift(u, owner, net - change);
    history := v.log;
    NothingToRun(v, 2);
    SettleIs(v, owner, 0, 0, true);
  }

  /** Selling at once: the pool and the row, what is sold and for what. */
  ghost predicate Sells(s: State, owner: Name, rex: int, b: Balance, q: Pool, proceeds: int) {
    && Calm(s) && s.pool.Some? && s.pool.value.rex != 0 && owner in s.balances && 0 < proceeds
    && b == Mature(s.balances[owner], Sec(s.now)) && 0 < rex <= b.matured
    && Fill(s.pool.value, rex) == Ok(Some((q, proceeds))) && q.namebid == 0
  }

  lemma SaleIs(s: State, owner: Name, rex: int, b: Balance, q: Pool, proceeds: int, stake: int) returns (history: Log)
    requires Sells(s, owner, rex, b, q, proceeds) && stake == Worth(s.pool.value, b.rex) - proceeds
    requires stake != b.voteStake && 0 <= At(s.staked, owner) + stake - b.voteStake
    ensures Step(s, ActSellRex(owner, rex))
            == Ok(s.(pool := Some(q), balances := s.balances[owner := Sold(b, stake, rex)],
                     funds := s.funds[owner := At(s.funds, owner) + proceeds],
                     staked := s.staked[owner := At(s.staked, owner) + stake - b.voteStake], log := history))
  {
    hide Worth, Fill, RunRex, UpdateAccount, Mature, Sold;
    NothingToRun(s, 2);
    var t := SetBalance(s, owner, b);
    var u := FillOrder(t, owner, rex).value.0;
    history := u.log;
    assert s.balances[owner := b][owner := Sold(b, stake, rex)] == s.balances[owner := Sold(b, stake, rex)];
    SettleIs(u, owner, proceeds, stake - b.voteStake, false);
    assert Sold(b, stake, rex).matured == b.matured - rex by {
      SoldMatured(b, stake, rex);
    }
  }

  lemma SoldMatured(b: Balance, stake: int, rex: int)
    ensures Sold(b, stake, rex).matured == b.matured - rex
  {
  }

  /** ... unless the seller's vote would fall below zero. */
  lemma SaleIsRefused(s: State, owner: Name, rex: int, b: Balance, q: Pool, proceeds: int, stake: int)
    requires Sells(s, owner, rex, b, q, proceeds) && stake == Worth(s.pool.value, b.rex) - proceeds
    requires stake != b.voteStake && At(s.staked, owner) + stake - b.voteStake < 0
    ensures Step(s, ActSellRex(owner, rex)) == Err(Rejected)
  {
    hide Worth, Fill, RunRex, UpdateAccount, Mature, Sold;
    NothingToRun(s, 2);
    var t := SetBalance(s, owner, b);
    var u := FillOrder(t, owner, rex).value.0;
    SettleRefused(u, owner, proceeds, stake - b.voteStake);
  }

  lemma DelegateIs(s: State, owner: Name, net: int)
    requires 0 < net
    ensures Step(s, ActDelegateBw(owner, owner, net, 0, false)) == ChangeBw(s, owner, owner, net, 0, false)
  {
    hide ChangeBw;
  }

  // ---------------------------------------------------------------------------------------------
  // A run that lets a stake drift: figures of ALICE's account.

  function Row(balances: map<Name, Balance>, owner: Name): Option<Balance> {
    if owner in balances then Some(balances[owner]) else None
  }

  /** Everyone taking part can still pay a given amount. */
  predicate Rich(tokens: Tokens, floor: int) {
    floor <= At(tokens, ALICE) && floor <= At(tokens, BOB) && floor <= At(tokens, RAMFEE_ACCOUNT)
  }

  ghost predicate Figures(s: State, now: int, floor: int, pool: Pool, row: Option<Balance>, fund: int, stake: int, net: int,
                          drift: int)
  {
    && Steady(s) && Calm(s) && s.refunds == map[] && s.now == now && Rich(s.tokens, floor)
    && s.pool == Some(pool) && pool.rex > 0
    && Row(s.balances, ALICE) == row && At(s.funds, ALICE) == fund && At(s.staked, ALICE) == stake
    && (stake != 0 ==> ALICE in s.staked)
    && WeightsOf(s.delegated, ALICE, ALICE) == Weights(net, 0) && At(s.log.drift, ALICE) == drift
  }

  /** A fresh chain on which everyone taking part has tokens. */
  ghost predicate Opening(s: State, tokens: Tokens, now: int, floor: int) {
    Fresh(tokens, now) && Rich(tokens, floor) && s == Genesis(tokens, now)
  }

  function BobBuys(amount: int): seq<Action> {
    [ActRegister(BOB), Deposit(BOB, amount), ActBuyRex(BOB, amount, true)]
  }

  lemma FirstPurchase(amount: int)
    requires 0 < amount
    ensures Buy(None, amount) == Ok((Pool(0, amount, INIT_RENT, amount, REX_RATIO * amount, 0, 0), REX_RATIO * amount))
  {
  }

  /** The first purchase on a fresh chain. */
  lemma AfterBobBuys(s: State, tokens: Tokens, now: int, floor: int, amount: int) returns (t: State)
    requires Opening(s, tokens, now, floor) && 0 < amount <= floor
    ensures t == Run(s, BobBuys(amount))
    ensures Figures(t, now, floor - amount, Pool(0, amount, INIT_RENT, amount, REX_RATIO * amount, 0, 0), None, 0, 0, 0, 0)
    ensures t.balances == map[BOB := RowBought(s, BOB, REX_RATIO * amount, amount)] && t.staked == map[BOB := amount]
    ensures t.funds == map[BOB := 0]
  {
    hide Sound, Run, Step, RowBought;
    GenesisIsSteady(tokens, now);
    RegisterIs(s, BOB);
    var s1 := s.(staked := map[BOB := 0]);
    DepositIs(s1, BOB, amount);
    var s2 := Step(s1, Deposit(BOB, amount)).value;
    FirstPurchase(amount);
    var q := Pool(0, amount, INIT_RENT, amount, REX_RATIO * amount, 0, 0);
    SameBought(s, s2, BOB, amount, q, REX_RATIO * amount);
    var log := PurchaseIs(s2, BOB, amount, q, REX_RATIO * amount, amount);
    t := Step(s2, ActBuyRex(BOB, amount, true)).value;
    RunAll(s, BobBuys(amount), [s, s1, s2, t]);
    StepIsSteady(s, ActRegister(BOB));
    StepIsSteady(s1, Deposit(BOB, amount));
    StepIsSteady(s2, ActBuyRex(BOB, amount, true));
    StepDrifts(s, ActRegister(BOB), ALICE);
    StepDrifts(s1, Deposit(BOB, amount), ALICE);
    StepDrifts(s2, ActBuyRex(BOB, amount, true), ALICE);
    assert t.balances == map[BOB := RowBought(s, BOB, REX_RATIO * amount, amount)];
  }

  lemma RegisterIs(s: State, owner: Name)
    requires owner !in s.staked
    ensures Step(s, ActRegister(owner)) == Ok(s.(staked := s.staked[owner := 0]))
  {
  }

  lemma AfterStake(s: State, now: int, floor: int, pool: Pool, net: int) returns (t: State)
    requires Figures(s, now, floor, pool, None, 0, 0, 0, 0) && 0 < net <= floor
    ensures Step(s, ActDelegateBw(ALICE, ALICE, net, 0, false)) == Ok(t)
    ensures Figures(t, now, floor - net, pool, None, 0, net, net, 0)
  {
    hide Sound, Step, ChangeBw;
    var resources := StakeIs(s, ALICE, net);
    DelegateIs(s, ALICE, net);
    t := ChangeBw(s, ALICE, ALICE, net, 0, false).value;
    StepIsSteady(s, ActDelegateBw(ALICE, ALICE, net, 0, false));
    StepDrifts(s, ActDelegateBw(ALICE, ALICE, net, 0, false), ALICE);
  }

  lemma AfterDeposit(s: State, now: int, floor: int, pool: Pool, row: Option<Balance>, stake: int, net: int, amount: int)
    returns (t: State)
    requires Figures(s, now, floor, pool, row, 0, stake, net, 0) && 0 < amount <= floor
    ensures Step(s, Deposit(ALICE, amount)) == Ok(t)
    ensures Figures(t, now, floor - amount, pool, row, amount, stake, net, 0) && ALICE in t.funds
    ensures t.balances == s.balances && t.staked == s.staked
  {
    hide Sound, Step;
    DepositIs(s, ALICE, amount);
    t := Step(s, Deposit(ALICE, amount)).value;
    StepIsSteady(s, Deposit(ALICE, amount));
    StepDrifts(s, Deposit(ALICE, amount), ALICE);
  }

  /** A row that holds what was bought today. */
  function RowToday(stake: int, rex: int, sec: int): Balance {
    Balance(stake, rex, 0, [Bucket(Maturity(sec), rex)])
  }

  lemma NewRow(s: State, owner: Name, received: int, stake: int)
    requires owner !in s.balances && ClockOk(s.now)
    ensures RowBought(s, owner, received, stake) == RowToday(stake, received, Sec(s.now))
  {
    hide Maturity;
  }

  lemma GrownRow(s: State, owner: Name, before: int, rex: int, received: int, stake: int)
    requires Row(s.balances, owner) == Some(RowToday(before, rex, Sec(s.now))) && ClockOk(s.now)
    ensures RowBought(s, owner, received, stake) == RowToday(stake, rex + received, Sec(s.now))
  {
    hide Maturity;
    MaturityGrows(Sec(s.now), Sec(s.now));
    var b := s.balances[owner];
    assert WithoutSavings(b) == b && Savings(b) == 0;
    assert Mature(b, Sec(s.now)) == b;
  }

  lemma AfterPurchase(s: State, now: int, floor: int, pool: Pool, fund: int, amount: int, stake: int, net: int,
                      q: Pool, received: int)
    returns (t: State)
    requires Figures(s, now, floor, pool, None, fund, stake, net, 0) && ALICE in s.funds && ALICE in s.staked
    requires 0 < amount <= fund && 0 <= stake && Buy(Some(pool), amount) == Ok((q, received)) && q.rex > 0 && q.namebid == 0
    ensures Step(s, ActBuyRex(ALICE, amount, true)) == Ok(t)
    ensures Figures(t, now, floor, q, Some(RowToday(amount, received, Sec(now))), fund - amount, stake + amount, net, 0)
    ensures t.balances == s.balances[ALICE := RowToday(amount, received, Sec(now))]
    ensures t.staked == s.staked[ALICE := stake + amount]
  {
    hide Sound, Step, RowBought, RowToday, Buy, Worth;
    SteadyClock(s);
    var log := PurchaseIs(s, ALICE, amount, q, received, amount);
    NewRow(s, ALICE, received, amount);
    t := Step(s, ActBuyRex(ALICE, amount, true)).value;
    StepIsSteady(s, ActBuyRex(ALICE, amount, true));
    StepDrifts(s, ActBuyRex(ALICE, amount, true), ALICE);
  }

  lemma SteadyClock(s: State)
    requires Steady(s)
    ensures ClockOk(s.now)
  {
  }

  lemma AfterFee(s: State, now: int, floor: int, pool: Pool, row: Option<Balance>, stake: int, net: int, amount: int)
    returns (t: State)
    requires Figures(s, now, floor, pool, row, 0, stake, net, 0) && 0 < amount <= floor
    ensures Step(s, ActFee(RAMFEE_ACCOUNT, amount)) == Ok(t)
    ensures Figures(t, now, floor - amount, Channel(pool, amount), row, 0, stake, net, 0) && t.balances == s.balances
  {
    hide Sound, Step;
    FeeIs(s, RAMFEE_ACCOUNT, amount);
    t := Step(s, ActFee(RAMFEE_ACCOUNT, amount)).value;
    StepIsSteady(s, ActFee(RAMFEE_ACCOUNT, amount));
    StepDrifts(s, ActFee(RAMFEE_ACCOUNT, amount), ALICE);
  }

  lemma AfterTime(s: State, now: int, floor: int, pool: Pool, row: Option<Balance>, stake: int, net: int, drift: int, later: int)
    returns (t: State)
    requires Figures(s, now, floor, pool, row, 0, stake, net, drift) && now <= later && ClockOk(later)
    ensures Step(s, ActTime(ALICE, later)) == Ok(t)
    ensures Figures(t, later, floor, pool, row, 0, stake, net, drift) && t.balances == s.balances
  {
    hide Sound, Step;
    TimeIs(s, ALICE, later);
    t := s.(now := later);
    StepIsSteady(s, ActTime(ALICE, later));
    StepDrifts(s, ActTime(ALICE, later), ALICE);
  }

  lemma AfterUnstaking(s: State, now: int, floor: int, pool: Pool, before: int, rex: int, stake: int, net: int,
                       q: Pool, received: int, counts: int)
    returns (t: State)
    requires Figures(s, now, floor, pool, Some(RowToday(before, rex, Sec(now))), 0, stake, net, 0) && 0 < net && 0 < stake
    requires Buy(Some(pool), net) == Ok((q, received)) && q.rex > 0 && q.namebid == 0 && Worth(q, rex + received) == counts
    ensures Step(s, ActUnstakeToRex(ALICE, ALICE, net, 0, true)) == Ok(t)
    ensures Figures(t, now, floor, q, Some(RowToday(counts, rex + received, Sec(now))), 0, stake, 0, net - (counts - before))
  {
    hide Sound, Step, RowBought, Buy, Worth, Maturity;
    SteadyClock(s);
    var resources, log := UnstakeIs(s, ALICE, net, q, received, counts);
    GrownRow(s, ALICE, before, rex, received, counts);
    t := Step(s, ActUnstakeToRex(ALICE, ALICE, net, 0, true)).value;
    StepIsSteady(s, ActUnstakeToRex(ALICE, ALICE, net, 0, true));
    StepDrifts(s, ActUnstakeToRex(ALICE, ALICE, net, 0, true), ALICE);
  }

  // ---------------------------------------------------------------------------------------------
  // The run itself.

  lemma {:induction false} RunAppend(s: State, a: seq<Action>, b: seq<Action>)
    ensures Run(s, a + b) == Run(Run(s, a), b)
    decreases |b|
  {
    hide Step;
    if b == [] {
      assert a + b == a;
    } else {
      var n := |b| - 1;
      RunAppend(s, a, b[..n]);
      assert (a + b)[..|a + b| - 1] == a + b[..n];
    }
  }

  /** BOB holds ten million shares worth 1000; ALICE stakes 10, and buys shares for 10 more. */
  function AliceBuys(): seq<Action> {
    [ActDelegateBw(ALICE, ALICE, 10, 0, false), Deposit(ALICE, 10), ActBuyRex(ALICE, 10, true)]
  }

  /** Fees double what shares are worth; then ALICE unstakes her 10 into shares. */
  function AliceUnstakes(): seq<Action> {
    [ActFee(RAMFEE_ACCOUNT, 1010), ActUnstakeToRex(ALICE, ALICE, 10, 0, true)]
  }

  const POOL_BOUGHT := Pool(0, 1010, INIT_RENT, 1010, 10_100_000, 0, 0)
  const POOL_UNSTAKED := Pool(0, 2030, INIT_RENT, 2030, 10_150_000, 0, 0)

  lemma AfterAliceBuys(s: State, now: int, floor: int) returns (t: State)
    requires Figures(s, now, floor, Pool(0, 1000, INIT_RENT, 1000, REX_RATIO * 1000, 0, 0), None, 0, 0, 0, 0) && 20 <= floor
    ensures t == Run(s, AliceBuys())
    ensures Figures(t, now, floor - 20, POOL_BOUGHT, Some(RowToday(10, 100_000, Sec(now))), 0, 20, 10, 0)
  {
    hide Run, Step, Figures, Buy, RowToday;
    var p := Pool(0, 1000, INIT_RENT, 1000, REX_RATIO * 1000, 0, 0);
    var s1 := AfterStake(s, now, floor, p, 10);
    var s2 := AfterDeposit(s1, now, floor - 10, p, None, 10, 10, 10);
    RexPool.BuyIs(p, 1000, 10_000_000, 10, 10_100_000);
    InStakedToo(s2, now, floor - 20, p, None, 10, 10, 10, 0);
    t := AfterPurchase(s2, now, floor - 20, p, 10, 10, 10, 10, POOL_BOUGHT, 100_000);
    RunAll(s, AliceBuys(), [s, s1, s2, t]);
  }

  lemma InStakedToo(s: State, now: int, floor: int, pool: Pool, row: Option<Balance>, fund: int, stake: int, net: int, drift: int)
    requires Figures(s, now, floor, pool, row, fund, stake, net, drift) && stake != 0
    ensures ALICE in s.staked
  {
  }

  lemma AfterAliceUnstakes(s: State, now: int, floor: int) returns (t: State)
    requires Figures(s, now, floor, POOL_BOUGHT, Some(RowToday(10, 100_000, Sec(now))), 0, 20, 10, 0) && 1010 <= floor
    ensures t == Run(s, AliceUnstakes())
    ensures Figures(t, now, floor - 1010, POOL_UNSTAKED, Some(RowToday(30, 150_000, Sec(now))), 0, 20, 0, -10)
  {
    hide Run, Step, Figures, Buy, RowToday, Worth;
    var row := Some(RowToday(10, 100_000, Sec(now)));
    var s1 := AfterFee(s, now, floor, POOL_BOUGHT, row, 20, 10, 1010);
    var p := Channel(POOL_BOUGHT, 1010);
    assert p == Pool(0, 2020, INIT_RENT, 2020, 10_100_000, 0, 0);
    RexPool.BuyIs(p, 2020, 10_100_000, 10, 10_150_000);
    WorthIs(POOL_UNSTAKED, 2030, 10_150_000, 150_000, 30);
    t := AfterUnstaking(s1, now, floor - 1010, p, 10, 100_000, 20, 10, POOL_UNSTAKED, 50_000, 30);
    RunAll(s, AliceUnstakes(), [s, s1, t]);
  }

  function Unstaking(): seq<Action> {
    BobBuys(1000) + AliceBuys() + AliceUnstakes()
  }

  lemma AfterUnstakingRun(s: State, tokens: Tokens, now: int, floor: int) returns (t: State)
    requires Opening(s, tokens, now, floor) && 10_000 <= floor
    ensures t == Run(s, Unstaking())
    ensures Figures(t, now, floor - 2030, POOL_UNSTAKED, Some(RowToday(30, 150_000, Sec(now))), 0, 20, 0, -10)
  {
    hide Run, Figures, RowToday, Opening, BobBuys, AliceBuys, AliceUnstakes, RowBought;
    var s1 := AfterBobBuys(s, tokens, now, floor, 1000);
    var s2 := AfterAliceBuys(s1, now, floor - 1000);
    t := AfterAliceUnstakes(s2, now, floor - 1020);
    RunAppend(s, BobBuys(1000), AliceBuys());
    RunAppend(s, BobBuys(1000) + AliceBuys(), AliceUnstakes());
  }

  lemma FiguresShow(s: State, now: int, floor: int, pool: Pool, row: Balance, fund: int, stake: int, net: int, drift: int)
    requires Figures(s, now, floor, pool, Some(row), fund, stake, net, drift)
    ensures ALICE in s.balances && s.balances[ALICE] == row && At(s.staked, ALICE) == stake && At(s.log.drift, ALICE) == drift
    ensures s.now == now && s.pool == Some(pool) && Calm(s) && Steady(s) && (stake != 0 ==> ALICE in s.staked)
  {
    hide Sound, Calm, Rich;
  }

  /**
   Unstaking into shares makes a stake drift: ALICE holds shares that count for 30 and delegates nothing,
   but votes with 20, because the rise in what her shares are worth was never passed on.
   */
  lemma UnstakingLosesVotes(s: State, tokens: Tokens, now: int)
    requires Opening(s, tokens, now, 10_000)
    ensures var t := Run(s, Unstaking());
            && ALICE in t.balances && t.balances[ALICE].voteStake == 30 && t.balances[ALICE].rex == 150_000
            && At(t.staked, ALICE) == 20 && At(t.log.drift, ALICE) == -10
  {
    hide Run, Unstaking, Figures, Opening, Calm, Sound;
    var t := AfterUnstakingRun(s, tokens, now, 10_000);
    FiguresShow(t, now, 7970, POOL_UNSTAKED, RowToday(30, 150_000, Sec(now)), 0, 20, 0, -10);
  }

  /** Six days, after which everything bought has matured. */
  const LATER: int := 6 * 24 * 3600 * 1_000_000

  lemma MaturedRow(stake: int, rex: int, now: int)
    ensures Mature(RowToday(stake, rex, Sec(now)), Sec(now + LATER)) == Balance(stake, rex, rex, [])
  {
    var sec := Sec(now);
    assert Sec(now + LATER) == sec + 6 * DAY;
    MaturityGrows(sec, sec);
    hide Maturity;
    var b := Balance(stake, rex, rex, []);
    assert Mature(b, Sec(now + LATER)) == b;
    assert RowToday(stake, rex, sec).buckets[1..] == [];
  }

  lemma AfterSixDays(s: State, tokens: Tokens, now: int) returns (t: State)
    requires Opening(s, tokens, now, 10_000) && ClockOk(now + LATER)
    ensures t == Run(s, Unstaking() + [ActTime(ALICE, now + LATER)])
    ensures Figures(t, now + LATER, 7970, POOL_UNSTAKED, Some(RowToday(30, 150_000, Sec(now))), 0, 20, 0, -10)
  {
    hide Run, Unstaking, Figures, Opening, Step, RowToday, ClockOk;
    var u := AfterUnstakingRun(s, tokens, now, 10_000);
    t := AfterTime(u, now, 7970, POOL_UNSTAKED, Some(RowToday(30, 150_000, Sec(now))), 20, 0, -10, now + LATER);
    RunAppend(s, Unstaking(), [ActTime(ALICE, now + LATER)]);
    RunAll(u, [ActTime(ALICE, now + LATER)], [u, t]);
  }

  lemma FillIs(p: Pool, unlent: int, lent: int, lendable: int, shares: int, rex: int, proceeds: int)
    requires p.rex == shares > 0 && p.lendable == lendable && p.unlent == unlent && p.lent == lent && lendable == unlent + lent
    requires proceeds * shares <= rex * lendable < proceeds * shares + shares
    ensures Fill(p, rex) == Ok(if proceeds <= unlent - 2 * lent / 10
                               then Some((p.(rex := shares - rex, lendable := lendable - proceeds,
                                             unlent := unlent - proceeds), proceeds))
                               else None)
  {
    hide Worth;
    WorthIs(p, lendable, shares, rex, proceeds);
  }

  /**
   ... and may have a sale refused though its shares have matured and the pool could pay for them: with
   them would go 30 of her vote, and she votes with 20.
   */
  lemma SaleRefused(s: State, tokens: Tokens, now: int)
    requires Opening(s, tokens, now, 10_000) && ClockOk(now + LATER)
    ensures var t := Run(s, Unstaking() + [ActTime(ALICE, now + LATER)]);
            && ALICE in t.balances && Mature(t.balances[ALICE], Sec(t.now)).matured == 150_000 && t.pool.Some?
            && Fill(t.pool.value, 150_000) == Ok(Some((Pool(0, 2000, INIT_RENT, 2000, 10_000_000, 0, 0), 30)))
            && Step(t, ActSellRex(ALICE, 150_000)) == Err(Rejected)
  {
    hide Run, Unstaking, Figures, Opening, Calm, Sound, Step, Mature, RowToday, Fill, Worth, ClockOk;
    var t := AfterSixDays(s, tokens, now);
    FiguresShow(t, now + LATER, 7970, POOL_UNSTAKED, RowToday(30, 150_000, Sec(now)), 0, 20, 0, -10);
    MaturedRow(30, 150_000, now);
    FillIs(POOL_UNSTAKED, 2030, 0, 2030, 10_150_000, 150_000, 30);
    WorthIs(POOL_UNSTAKED, 2030, 10_150_000, 150_000, 30);
    SaleIsRefused(t, ALICE, 150_000, Balance(30, 150_000, 150_000, []), Pool(0, 2000, INIT_RENT, 2000, 10_000_000, 0, 0), 30, 0);
  }

  const POOL_SOLD := Pool(0, 2010, INIT_RENT, 2010, 10_049_999, 0, 0)

  /**
   Selling fewer goes through and leaves her voting with nothing; the next vote revalues what is left,
   worth a fraction of a token less, and leaves her voting with less than nothing.
   */
  lemma StakeBelowZero(s: State, tokens: Tokens, now: int)
    requires Opening(s, tokens, now, 10_000) && ClockOk(now + LATER)
    ensures var t := Run(s, Unstaking() + [ActTime(ALICE, now + LATER)] + [ActSellRex(ALICE, 100_001), ActVote(ALICE)]);
            At(t.staked, ALICE) == -1
  {
    hide Run, Unstaking, Figures, Opening, Calm, Sound, Step, Mature, RowToday, Fill, Worth, ClockOk;
    var t := AfterSixDays(s, tokens, now);
    FiguresShow(t, now + LATER, 7970, POOL_UNSTAKED, RowToday(30, 150_000, Sec(now)), 0, 20, 0, -10);
    MaturedRow(30, 150_000, now);
    FillIs(POOL_UNSTAKED, 2030, 0, 2030, 10_150_000, 100_001, 20);
    WorthIs(POOL_UNSTAKED, 2030, 10_150_000, 150_000, 30);
    WorthIs(POOL_SOLD, 2010, 10_049_999, 49_999, 9);
    var b := Balance(30, 150_000, 150_000, []);
    var log := SaleIs(t, ALICE, 100_001, b, POOL_SOLD, 20, 10);
    var u := Step(t, ActSellRex(ALICE, 100_001)).value;
    VoteRevalues(u, ALICE, 9);
    var actions := [ActSellRex(ALICE, 100_001), ActVote(ALICE)];
    RunAppend(s, Unstaking() + [ActTime(ALICE, now + LATER)], actions);
    RunAll(t, actions, [t, u, UpdateRexStake(u, ALICE)]);
  }

  lemma VoteRevalues(s: State, voter: Name, stake: int)
    requires voter in s.balances && voter in s.staked && RexAvailable(s) && Worth(s.pool.value, s.balances[voter].rex) == stake
    requires stake != s.balances[voter].voteStake
    ensures Step(s, ActVote(voter)) == Ok(UpdateRexStake(s, voter))
    ensures At(UpdateRexStake(s, voter).staked, voter) == s.staked[voter] + stake - s.balances[voter].voteStake
  {
    hide Worth;
  }
}
