/** A run of the exchange from a fresh chain in which an order is overtaken by a later one. */
module ExchangeOvertaking {
  import opened Basics
  import opened Ledger
  import opened RexPool
  import opened RexBalance
  import opened Exchange
  import opened ExchangeBooks
  import opened ExchangeParts
  import opened ExchangeLoans
  import opened ExchangeShares
  import opened ExchangeOrders
  import opened ExchangeRuns
  import opened ExchangeHistory
  import opened ExchangeQueue
  import opened ExchangeInstances
  import SortedIndex

  // ---------------------------------------------------------------------------------------------
  // Renting, and selling what does not fit.

  predicate NoneDue(table: map<nat, Loan>, now: int) {
    forall n :: n in table ==> now < table[n].expiration
  }

  lemma NoneExpired(table: map<nat, Loan>, now: int)
    requires NoneDue(table, now)
    ensures Expired(table, now) == None
  {
  }

  /** With no loan due and no name sold, maintenance is a round of the queue. */
  lemma OnlyARound(s: State, max: nat)
    requires s.pool.Some? && s.pool.value.namebid == 0 && NoneDue(s.loans.cpu, s.now) && NoneDue(s.loans.net, s.now)
    ensures RunRex(s, max) == FillOrders(s, Queue(s.orders), max)
  {
    hide Expired, Queue, FillOrders, NoneDue;
    NoneExpired(s.loans.cpu, s.now);
    NoneExpired(s.loans.net, s.now);
    assert ProcessLoans(s, Cpu, max) == Ok(s) && ProcessLoans(s, Net, max) == Ok(s);
  }

  lemma RentIs(s: State, owner: Name, payment: int, rented: int) returns (totals: map<Name, Resources>, history: Log)
    requires Steady(s) && Calm(s) && RexAvailable(s) && owner in s.funds && 0 < payment <= s.funds[owner]
    requires BancorOutput(s.pool.value.rent, s.pool.value.unlent, payment) == Ok(rented) && payment < rented
    ensures var p := AddLoan(s.pool.value, payment, rented, true);
            Rent(s, Cpu, owner, owner, payment, 0)
            == Ok(s.(pool := Some(p), funds := s.funds[owner := s.funds[owner] - payment],
                     loans := Loans(map[p.loanNum := Loan(owner, owner, payment, 0, rented, s.now + LOAN_TERM)], map[]),
                     resources := totals, log := history))
  {
    hide Sound, BancorOutput, RunRex, AddLoan;
    NothingToRun(s, 2);
    AnyVoter(s, Idle(s, 0), owner);
    RentKeeps(s, Idle(s, owner), Cpu, owner, payment, 0);
    var r := Rent(s, Cpu, owner, owner, payment, 0);
    totals, history := r.value.resources, r.value.log;
  }

  lemma ActRentIs(s: State, owner: Name, payment: int)
    ensures Step(s, ActRent(Cpu, owner, owner, payment, 0)) == Rent(s, Cpu, owner, owner, payment, 0)
  {
    hide Rent;
  }

  /** A sale that does not fit is queued. */
  lemma QueuedIs(s: State, owner: Name, rex: int, b: Balance)
    requires RunRex(s, 2) == Ok(s) && owner in s.balances && owner !in s.orders && owner != B1
    requires b == Mature(s.balances[owner], Sec(s.now)) && 0 < rex <= b.matured
    requires s.pool.Some? && Fill(s.pool.value, rex) == Ok(None) && 0 <= At(s.staked, owner)
    ensures Step(s, ActSellRex(owner, rex))
            == Ok(s.(balances := s.balances[owner := b], orders := s.orders[owner := Order(rex, 0, 0, s.now, true)]))
  {
    hide Fill, RunRex, UpdateAccount, Mature;
    var t := SetBalance(s, owner, b);
    SettleIs(t, owner, 0, 0, false);
  }

  // ---------------------------------------------------------------------------------------------
  // A short queue.

  lemma WalkOfOne(keys: map<Name, real>, a: Name)
    requires keys.Keys == {a}
    ensures SortedIndex.Walk(keys) == [a]
  {
    assert SortedIndex.First(keys) == a;
    var none := keys - {a};
    assert none == map[];
    assert SortedIndex.Walk(none) == [];
  }

  lemma QueueOfOne(orders: map<Name, Order>, a: Name)
    requires orders.Keys == {a}
    ensures Queue(orders) == [a]
  {
    hide SortedIndex.Walk;
    assert OrderKeys(orders).Keys == {a};
    WalkOfOne(OrderKeys(orders), a);
  }

  lemma QueueOfTwo(orders: map<Name, Order>, a: Name, b: Name)
    requires orders.Keys == {a, b} && a != b && orders[a].open && orders[b].open && orders[a].time < orders[b].time
    ensures Queue(orders) == [a, b]
  {
    var keys := OrderKeys(orders);
    assert keys.Keys == {a, b};
    assert keys[a] < keys[b];
    assert !SortedIndex.Before(keys, b, a);
    assert SortedIndex.First(keys) == a;
    var rest := keys - {a};
    assert rest.Keys == {b};
    WalkOfOne(rest, b);
    assert SortedIndex.Walk(keys) == [a] + SortedIndex.Walk(rest);
  }

  lemma NotFilled(s: State, owner: Name)
    requires Open(s.orders, owner) && owner in s.balances && s.pool.Some?
    requires Fill(s.pool.value, s.orders[owner].requested) == Ok(None)
    ensures FillQueued(s, owner) == Ok(s)
  {
    hide Fill;
  }

  lemma OnePassedOver(s: State, owner: Name, queue: seq<Name>, max: nat)
    requires queue != [] && queue[0] == owner && 0 < max && Open(s.orders, owner) && FillQueued(s, owner) == Ok(s)
    ensures FillOrders(s, queue, max) == FillOrders(s, queue[1..], max - 1)
  {
    hide FillQueued;
  }

  // ---------------------------------------------------------------------------------------------
  // The run.

  /** BOB lends the pool one billion, ALICE two, and she rents for another. */
  function Opens(): seq<Action> {
    BobBuys(1_000_000_000)
    + [ActRegister(ALICE), Deposit(ALICE, 3_000_000_000), ActBuyRex(ALICE, 2_000_000_000, true),
       ActRent(Cpu, ALICE, ALICE, 1_000_000_000, 0)]
  }

  /** Six days later ALICE orders all her shares sold, a second after her BOB; then fees come in. */
  function Orders(now: int): seq<Action> {
    [ActTime(ALICE, now + LATER), ActSellRex(ALICE, 20_000_000_000_000), ActTime(ALICE, now + LATER + 1_000_000),
     ActSellRex(BOB, 10_000_000_000_000), ActFee(RAMFEE_ACCOUNT, 600_000_000)]
  }

  const POOL_OF_BOTH := Pool(0, 3_000_000_000, INIT_RENT, 3_000_000_000, 30_000_000_000_000, 0, 0)
  const POOL_RENTED := Pool(2_500_000_000, 1_500_000_000, 1_200_000_000, 4_000_000_000, 30_000_000_000_000, 0, 1)
  const POOL_LATER := Pool(2_500_000_000, 2_100_000_000, 1_200_000_000, 4_600_000_000, 30_000_000_000_000, 0, 1)

  function Rented(now: int): Loans {
    Loans(map[1 := Loan(ALICE, ALICE, 1_000_000_000, 0, 2_500_000_000, now + LOAN_TERM)], map[])
  }

  ghost predicate Scene(s: State, now: int, floor: int, pool: Pool, a: Balance, b: Balance, loans: Loans,
                        orders: map<Name, Order>)
  {
    && Steady(s) && s.now == now && Rich(s.tokens, floor) && s.pool == Some(pool)
    && Row(s.balances, ALICE) == Some(a) && Row(s.balances, BOB) == Some(b)
    && s.loans == loans && s.orders == orders
    && 0 <= At(s.staked, ALICE) && 0 <= At(s.staked, BOB)
  }

  lemma BancorIs(conin: int, conout: int, incoming: int, out: int)
    requires 0 < conin && 0 < conout && 0 < incoming
    requires out * (incoming + conin) <= incoming * conout < out * (incoming + conin) + (incoming + conin)
    ensures BancorOutput(conin, conout, incoming) == Ok(out)
  {
    Quotient(incoming * conout, incoming + conin, out);
  }

  lemma AfterRegister(s: State, now: int, floor: int, pool: Pool) returns (t: State)
    requires Figures(s, now, floor, pool, None, 0, 0, 0, 0) && ALICE !in s.staked
    ensures Step(s, ActRegister(ALICE)) == Ok(t)
    ensures Figures(t, now, floor, pool, None, 0, 0, 0, 0) && t.balances == s.balances && t.staked == s.staked[ALICE := 0]
  {
    hide Sound, Step;
    RegisterIs(s, ALICE);
    t := s.(staked := s.staked[ALICE := 0]);
    StepIsSteady(s, ActRegister(ALICE));
  }

  lemma AfterRent(s: State, now: int, floor: int, a: Balance, b: Balance) returns (t: State)
    requires Figures(s, now, floor, POOL_OF_BOTH, Some(a), 1_000_000_000, 2_000_000_000, 0, 0)
    requires Row(s.balances, BOB) == Some(b) && 0 <= At(s.staked, BOB) && ALICE in s.funds
    ensures Step(s, ActRent(Cpu, ALICE, ALICE, 1_000_000_000, 0)) == Ok(t)
    ensures Scene(t, now, floor, POOL_RENTED, a, b, Rented(now), map[])
  {
    hide Sound, Step, Rent, BancorOutput;
    BancorIs(200_000_000, 3_000_000_000, 1_000_000_000, 2_500_000_000);
    ActRentIs(s, ALICE, 1_000_000_000);
    var resources, log := RentIs(s, ALICE, 1_000_000_000, 2_500_000_000);
    t := Rent(s, Cpu, ALICE, ALICE, 1_000_000_000, 0).value;
    StepIsSteady(s, ActRent(Cpu, ALICE, ALICE, 1_000_000_000, 0));
  }

  lemma AfterOpens(s: State, tokens: Tokens, now: int) returns (t: State)
    requires Opening(s, tokens, now, 10_000_000_000)
    ensures t == Run(s, Opens())
    ensures Scene(t, now, 6_000_000_000, POOL_RENTED, RowToday(2_000_000_000, 20_000_000_000_000, Sec(now)),
                  RowToday(1_000_000_000, 10_000_000_000_000, Sec(now)), Rented(now), map[])
  {
    hide Run, Step, Figures, Opening, Buy, RowToday, Scene, BobBuys, RowBought;
    var p := Pool(0, 1_000_000_000, INIT_RENT, 1_000_000_000, 10_000_000_000_000, 0, 0);
    var s0 := AfterBobBuys(s, tokens, now, 10_000_000_000, 1_000_000_000);
    BobsRow(s, tokens, now);
    var s1 := AfterRegister(s0, now, 9_000_000_000, p);
    var s2 := AfterDeposit(s1, now, 9_000_000_000, p, None, 0, 0, 3_000_000_000);
    RexPool.BuyIs(p, 1_000_000_000, 10_000_000_000_000, 2_000_000_000, 30_000_000_000_000);
    var s3 := AfterPurchase(s2, now, 6_000_000_000, p, 3_000_000_000, 2_000_000_000, 0, 0, POOL_OF_BOTH, 20_000_000_000_000);
    AlicesFund(s3, now, 6_000_000_000, POOL_OF_BOTH, RowToday(2_000_000_000, 20_000_000_000_000, Sec(now)), 1_000_000_000,
               2_000_000_000);
    t := AfterRent(s3, now, 6_000_000_000, RowToday(2_000_000_000, 20_000_000_000_000, Sec(now)),
                   RowToday(1_000_000_000, 10_000_000_000_000, Sec(now)));
    var rest := [ActRegister(ALICE), Deposit(ALICE, 3_000_000_000), ActBuyRex(ALICE, 2_000_000_000, true),
                 ActRent(Cpu, ALICE, ALICE, 1_000_000_000, 0)];
    RunAll(s0, rest, [s0, s1, s2, s3, t]);
    RunAppend(s, BobBuys(1_000_000_000), rest);
  }

  lemma AlicesFund(s: State, now: int, floor: int, pool: Pool, row: Balance, fund: int, stake: int)
    requires Figures(s, now, floor, pool, Some(row), fund, stake, 0, 0) && fund != 0
    ensures ALICE in s.funds
  {
  }

  lemma BobsRow(s: State, tokens: Tokens, now: int)
    requires Opening(s, tokens, now, 10_000_000_000)
    ensures RowBought(s, BOB, REX_RATIO * 1_000_000_000, 1_000_000_000) == RowToday(1_000_000_000, 10_000_000_000_000, Sec(now))
  {
    hide RowBought, RowToday;
    NewRow(s, BOB, REX_RATIO * 1_000_000_000, 1_000_000_000);
  }

  lemma SceneShows(s: State, now: int, floor: int, pool: Pool, a: Balance, b: Balance, loans: Loans, orders: map<Name, Order>)
    requires Scene(s, now, floor, pool, a, b, loans, orders)
    ensures Steady(s) && s.now == now && s.pool == Some(pool) && s.loans == loans && s.orders == orders
    ensures ALICE in s.balances && s.balances[ALICE] == a && BOB in s.balances && s.balances[BOB] == b
    ensures 0 <= At(s.staked, ALICE) && 0 <= At(s.staked, BOB)
  {
    hide Sound, Rich;
  }

  lemma LoansWait(start: int, now: int)
    requires now < start + LOAN_TERM
    ensures NoneDue(Rented(start).cpu, now) && NoneDue(Rented(start).net, now)
  {
  }

  lemma TimePasses(s: State, now: int, floor: int, pool: Pool, a: Balance, b: Balance, loans: Loans, orders: map<Name, Order>,
                   later: int)
    returns (t: State)
    requires Scene(s, now, floor, pool, a, b, loans, orders) && now <= later && ClockOk(later)
    ensures Step(s, ActTime(ALICE, later)) == Ok(t)
    ensures Scene(t, later, floor, pool, a, b, loans, orders)
  {
    hide Sound, Step;
    TimeIs(s, ALICE, later);
    t := s.(now := later);
    StepIsSteady(s, ActTime(ALICE, later));
  }

  /** The two sales, and when each is ordered. */
  function AlicesOrder(now: int): Order {
    Order(20_000_000_000_000, 0, 0, now + LATER, true)
  }

  function BobsOrder(now: int): Order {
    Order(10_000_000_000_000, 0, 0, now + LATER + 1_000_000, true)
  }

  function Matured(stake: int, rex: int): Balance {
    Balance(stake, rex, rex, [])
  }

  lemma MaturedBy(stake: int, rex: int, now: int, later: int)
    requires now + LATER <= later
    ensures Mature(RowToday(stake, rex, Sec(now)), Sec(later)) == Matured(stake, rex)
  {
    var sec := Sec(now);
    assert Sec(later) >= sec + 6 * DAY;
    MaturityGrows(sec, sec);
    hide Maturity;
    assert Mature(Matured(stake, rex), Sec(later)) == Matured(stake, rex);
    assert RowToday(stake, rex, sec).buckets[1..] == [];
  }

  /** ALICE's order is for more than is unlent, less a fifth of what is lent; so it waits. */
  lemma AliceSells(s: State, start: int, b: Balance) returns (t: State)
    requires Scene(s, start + LATER, 6_000_000_000, POOL_RENTED, RowToday(2_000_000_000, 20_000_000_000_000, Sec(start)), b,
                   Rented(start), map[])
    ensures Step(s, ActSellRex(ALICE, 20_000_000_000_000)) == Ok(t)
    ensures Scene(t, start + LATER, 6_000_000_000, POOL_RENTED, Matured(2_000_000_000, 20_000_000_000_000), b, Rented(start),
                  map[ALICE := AlicesOrder(start)])
  {
    hide Sound, Step, Fill, RunRex, Mature, RowToday, Matured, Worth, Rented, NoneDue;
    SceneShows(s, start + LATER, 6_000_000_000, POOL_RENTED, RowToday(2_000_000_000, 20_000_000_000_000, Sec(start)), b,
               Rented(start), map[]);
    LoansWait(start, start + LATER);
    OnlyARound(s, 2);
    EmptyRound(s, 2);
    MaturedBy(2_000_000_000, 20_000_000_000_000, start, start + LATER);
    FillIs(POOL_RENTED, 1_500_000_000, 2_500_000_000, 4_000_000_000, 30_000_000_000_000, 20_000_000_000_000, 2_666_666_666);
    MaturedAll(2_000_000_000, 20_000_000_000_000);
    QueuedIs(s, ALICE, 20_000_000_000_000, Matured(2_000_000_000, 20_000_000_000_000));
    t := Step(s, ActSellRex(ALICE, 20_000_000_000_000)).value;
    StepIsSteady(s, ActSellRex(ALICE, 20_000_000_000_000));
  }

  lemma EmptyRound(s: State, max: nat)
    requires s.orders == map[]
    ensures FillOrders(s, Queue(s.orders), max) == Ok(s)
  {
    assert OrderKeys(s.orders) == map[];
    assert Queue(s.orders) == [];
  }

  lemma MaturedAll(stake: int, rex: int)
    ensures Matured(stake, rex).matured == rex
  {
  }

  /** BOB's order behind it does not fit either yet. */
  lemma BobSells(s: State, start: int) returns (t: State)
    requires Scene(s, start + LATER + 1_000_000, 6_000_000_000, POOL_RENTED, Matured(2_000_000_000, 20_000_000_000_000),
                   RowToday(1_000_000_000, 10_000_000_000_000, Sec(start)), Rented(start), map[ALICE := AlicesOrder(start)])
    ensures Step(s, ActSellRex(BOB, 10_000_000_000_000)) == Ok(t)
    ensures Scene(t, start + LATER + 1_000_000, 6_000_000_000, POOL_RENTED, Matured(2_000_000_000, 20_000_000_000_000),
                  Matured(1_000_000_000, 10_000_000_000_000), Rented(start),
                  map[ALICE := AlicesOrder(start), BOB := BobsOrder(start)])
  {
    hide Sound, Step, Fill, RunRex, Mature, RowToday, Matured, Worth, Rented, NoneDue, Queue, FillQueued, FillOrders;
    SceneShows(s, start + LATER + 1_000_000, 6_000_000_000, POOL_RENTED, Matured(2_000_000_000, 20_000_000_000_000),
               RowToday(1_000_000_000, 10_000_000_000_000, Sec(start)), Rented(start), map[ALICE := AlicesOrder(start)]);
    LoansWait(start, start + LATER + 1_000_000);
    OnlyARound(s, 2);
    FillIs(POOL_RENTED, 1_500_000_000, 2_500_000_000, 4_000_000_000, 30_000_000_000_000, 20_000_000_000_000, 2_666_666_666);
    OneWaits(s, 2);
    MaturedBy(1_000_000_000, 10_000_000_000_000, start, start + LATER + 1_000_000);
    FillIs(POOL_RENTED, 1_500_000_000, 2_500_000_000, 4_000_000_000, 30_000_000_000_000, 10_000_000_000_000, 1_333_333_333);
    MaturedAll(1_000_000_000, 10_000_000_000_000);
    QueuedIs(s, BOB, 10_000_000_000_000, Matured(1_000_000_000, 10_000_000_000_000));
    t := Step(s, ActSellRex(BOB, 10_000_000_000_000)).value;
    StepIsSteady(s, ActSellRex(BOB, 10_000_000_000_000));
  }

  /** A round that passes over the one order there is. */
  lemma OneWaits(s: State, max: nat)
    requires s.orders.Keys == {ALICE} && s.orders[ALICE].open && ALICE in s.balances && s.pool.Some? && 0 < max
    requires Fill(s.pool.value, s.orders[ALICE].requested) == Ok(None)
    ensures FillOrders(s, Queue(s.orders), max) == Ok(s)
  {
    hide Fill, FillQueued, Queue;
    QueueOfOne(s.orders, ALICE);
    NotFilled(s, ALICE);
    var queue := Queue(s.orders);
    OnePassedOver(s, ALICE, queue, max);
    assert queue[1..] == [];
  }

  lemma FeesComeIn(s: State, start: int) returns (t: State)
    requires Scene(s, start + LATER + 1_000_000, 6_000_000_000, POOL_RENTED, Matured(2_000_000_000, 20_000_000_000_000),
                   Matured(1_000_000_000, 10_000_000_000_000), Rented(start),
                   map[ALICE := AlicesOrder(start), BOB := BobsOrder(start)])
    ensures Step(s, ActFee(RAMFEE_ACCOUNT, 600_000_000)) == Ok(t)
    ensures Scene(t, start + LATER + 1_000_000, 5_400_000_000, POOL_LATER, Matured(2_000_000_000, 20_000_000_000_000),
                  Matured(1_000_000_000, 10_000_000_000_000), Rented(start),
                  map[ALICE := AlicesOrder(start), BOB := BobsOrder(start)])
  {
    hide Sound, Step, Matured, Rented, AlicesOrder, BobsOrder;
    FeeIs(s, RAMFEE_ACCOUNT, 600_000_000);
    t := Step(s, ActFee(RAMFEE_ACCOUNT, 600_000_000)).value;
    StepIsSteady(s, ActFee(RAMFEE_ACCOUNT, 600_000_000));
  }

  lemma AfterOrders(s: State, start: int) returns (t: State)
    requires Scene(s, start, 6_000_000_000, POOL_RENTED, RowToday(2_000_000_000, 20_000_000_000_000, Sec(start)),
                   RowToday(1_000_000_000, 10_000_000_000_000, Sec(start)), Rented(start), map[])
    requires ClockOk(start + LATER) && ClockOk(start + LATER + 1_000_000)
    ensures t == Run(s, Orders(start))
    ensures Scene(t, start + LATER + 1_000_000, 5_400_000_000, POOL_LATER, Matured(2_000_000_000, 20_000_000_000_000),
                  Matured(1_000_000_000, 10_000_000_000_000), Rented(start),
                  map[ALICE := AlicesOrder(start), BOB := BobsOrder(start)])
  {
    hide Run, Step, Scene, RowToday, Matured, Rented, AlicesOrder, BobsOrder, ClockOk;
    var a, b := RowToday(2_000_000_000, 20_000_000_000_000, Sec(start)), RowToday(1_000_000_000, 10_000_000_000_000, Sec(start));
    var s1 := TimePasses(s, start, 6_000_000_000, POOL_RENTED, a, b, Rented(start), map[], start + LATER);
    var s2 := AliceSells(s1, start, b);
    var s3 := TimePasses(s2, start + LATER, 6_000_000_000, POOL_RENTED, Matured(2_000_000_000, 20_000_000_000_000), b,
                         Rented(start), map[ALICE := AlicesOrder(start)], start + LATER + 1_000_000);
    var s4 := BobSells(s3, start);
    t := FeesComeIn(s4, start);
    RunAll(s, Orders(start), [s, s1, s2, s3, s4, t]);
  }

  /**
   ALICE's order came first and is still worth more than the pool can pay; BOB's, which came later and is
   half as large, fits. Maintenance passes over hers and fills his.
   */
  lemma OrderOvertaken(s: State, tokens: Tokens, now: int)
    requires Opening(s, tokens, now, 10_000_000_000)
    requires ClockOk(now + LATER) && ClockOk(now + LATER + 1_000_000)
    ensures var t := Run(s, Opens() + Orders(now));
            && Queue(t.orders) == [ALICE, BOB] && Overtaken(t, 2, 0)
            && var r := Step(t, ActRexExec(ALICE, 2));
            && r.Ok? && Open(r.value.orders, ALICE) && FilledBy(t.orders, r.value.orders, BOB)
            && t.orders[ALICE].time < t.orders[BOB].time
  {
    hide Run, Step, Scene, RowToday, Matured, Rented, ClockOk, Opens, Orders, Opening, Sound, Fill, Worth, RunRex, FillOrders,
         FillQueued, Overtaken, FilledBy, Open, Queue;
    var s1 := AfterOpens(s, tokens, now);
    var t := AfterOrders(s1, now);
    RunAppend(s, Opens(), Orders(now));
    BobGoesFirst(t, now);
    ExecIs(t, ALICE, 2);
  }

  lemma ExecIs(s: State, owner: Name, max: nat)
    ensures Step(s, ActRexExec(owner, max)) == RunRex(s, max)
  {
    hide RunRex;
  }

  lemma BobGoesFirst(t: State, start: int)
    requires Scene(t, start + LATER + 1_000_000, 5_400_000_000, POOL_LATER, Matured(2_000_000_000, 20_000_000_000_000),
                   Matured(1_000_000_000, 10_000_000_000_000), Rented(start),
                   map[ALICE := AlicesOrder(start), BOB := BobsOrder(start)])
    ensures Queue(t.orders) == [ALICE, BOB] && Overtaken(t, 2, 0) && ALICE in t.orders && BOB in t.orders
    ensures var r := RunRex(t, 2);
            r.Ok? && Open(r.value.orders, ALICE) && FilledBy(t.orders, r.value.orders, BOB)
            && t.orders[ALICE].time < t.orders[BOB].time
  {
    hide Scene, Matured, Rented, NoneDue, Sound, Fill, Worth, RunRex, FillOrders, FillQueued, Queue, FitsInTurn, Fits;
    SceneShows(t, start + LATER + 1_000_000, 5_400_000_000, POOL_LATER, Matured(2_000_000_000, 20_000_000_000_000),
               Matured(1_000_000_000, 10_000_000_000_000), Rented(start),
               map[ALICE := AlicesOrder(start), BOB := BobsOrder(start)]);
    LoansWait(start, start + LATER + 1_000_000);
    OnlyARound(t, 2);
    QueueOfTwo(t.orders, ALICE, BOB);
    FitsIs(POOL_LATER, 2_100_000_000, 2_500_000_000, 4_600_000_000, 30_000_000_000_000, 20_000_000_000_000, 3_066_666_666);
    FitsIs(POOL_LATER, 2_100_000_000, 2_500_000_000, 4_600_000_000, 30_000_000_000_000, 10_000_000_000_000, 1_533_333_333);
    FirstTurns(t, [ALICE, BOB]);
    PassedOverIff(t, 2, 0);
    PassedOverIff(t, 2, 1);
    OvertakenIff(t, 2, 0);
  }

  lemma FitsIs(p: Pool, unlent: int, lent: int, lendable: int, shares: int, rex: int, worth: int)
    requires p.rex == shares > 0 && p.lendable == lendable && p.unlent == unlent && p.lent == lent
    requires worth * shares <= rex * lendable < worth * shares + shares
    ensures Fits(Some(p), rex) <==> worth <= unlent - 2 * lent / 10
  {
    hide Worth;
    WorthIs(p, lendable, shares, rex, worth);
  }

  /** The first order is tried on the pool as it is; so is the second if the first is passed over. */
  lemma FirstTurns(s: State, queue: seq<Name>)
    requires queue == [ALICE, BOB] && ALICE in s.orders && BOB in s.orders
    requires !Fits(s.pool, s.orders[ALICE].requested)
    ensures !FitsInTurn(s, queue, 0)
    ensures FitsInTurn(s, queue, 1) <==> Fits(s.pool, s.orders[BOB].requested)
  {
    hide Fits;
    assert PoolInTurn(s.pool, s.orders, queue, 0) == s.pool;
  }
}
