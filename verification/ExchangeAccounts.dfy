/**
 What the exchange holds for each account: every token in its fund, in the funds of the loans it opened,
 or in its filled order came from what it paid in or earned, less what it took out or spent.
 */
module ExchangeAccounts {
  import opened Basics
  import opened Ledger
  import opened RexPool
  import opened RexBalance
  import opened Exchange
  import opened ExchangeBooks
  import opened ExchangeParts
  import opened ExchangeLoans
  import opened ExchangeShares
  import opened ExchangeOrders
  import opened ExchangeStaking
  import opened ExchangeRuns
  import opened ExchangeHistory
  import opened Sums

  /** The total of an account's deals for one reason. */
  function Dealt(deals: seq<Deal>, owner: Name, reason: Reason): int {
    if deals == [] then 0
    else
      var last := deals[|deals| - 1];
      Dealt(deals[..|deals| - 1], owner, reason) + (if last.owner == owner && last.reason == reason then last.amount else 0)
  }

  /** What an account should be left with. */
  function Due(deals: seq<Deal>, owner: Name): int {
    Dealt(deals, owner, PaidIn) + Dealt(deals, owner, FromSale) - Dealt(deals, owner, PaidOut)
    - Dealt(deals, owner, ForShares) - Dealt(deals, owner, ForRent) - Dealt(deals, owner, ForRenewal)
  }

  function FundOf(owner: Name): (nat, Loan) -> int {
    (n: nat, l: Loan) => if l.from == owner then l.balance else 0
  }

  /** What the exchange holds for an account. */
  ghost function Held(funds: map<Name, int>, loans: Loans, orders: map<Name, Order>, owner: Name): int {
    At(funds, owner) + Sum(loans.cpu, FundOf(owner)) + Sum(loans.net, FundOf(owner)) + Amount(Unclaimed(orders, owner))
  }

  ghost function Excess(funds: map<Name, int>, loans: Loans, orders: map<Name, Order>, deals: seq<Deal>, owner: Name): int {
    Held(funds, loans, orders, owner) - Due(deals, owner)
  }

  /** By how much what is held for an account exceeds what it should be left with. */
  ghost function ExcessOf(s: State, x: Name): int {
    Excess(s.funds, s.loans, s.orders, s.log.deals, x)
  }

  function If(condition: bool, amount: int): int {
    if condition then amount else 0
  }

  /** A transition changes an account's excess by a given amount. */
  ghost predicate Shifts(s: State, r: Result<State>, x: Name, amount: int) {
    r.Ok? ==> ExcessOf(r.value, x) == ExcessOf(s, x) + amount
  }

  /** A transition that has nothing to do with what is held for accounts. */
  predicate Aside(s: State, t: State) {
    t.funds == s.funds && t.loans == s.loans && t.orders == s.orders && t.log.deals == s.log.deals
  }

  // ---------------------------------------------------------------------------------------------
  // One row changes.

  function Effect(reason: Reason, amount: int): int {
    if reason == PaidIn || reason == FromSale then amount else -amount
  }

  lemma DealtAppend(deals: seq<Deal>, d: Deal, owner: Name, reason: Reason)
    ensures Dealt(deals + [d], owner, reason)
            == Dealt(deals, owner, reason) + If(d.owner == owner && d.reason == reason, d.amount)
  {
    assert (deals + [d])[..|deals|] == deals;
  }

  lemma RecordShifts(s: State, owner: Name, reason: Reason, amount: int, x: Name)
    ensures ExcessOf(Record(s, owner, reason, amount), x) == ExcessOf(s, x) - If(x == owner, Effect(reason, amount))
  {
    hide Dealt, Held;
    var d := Deal(owner, reason, amount);
    DealtAppend(s.log.deals, d, x, PaidIn);
    DealtAppend(s.log.deals, d, x, PaidOut);
    DealtAppend(s.log.deals, d, x, ForShares);
    DealtAppend(s.log.deals, d, x, FromSale);
    DealtAppend(s.log.deals, d, x, ForRent);
    DealtAppend(s.log.deals, d, x, ForRenewal);
  }

  lemma FundPut(s: State, owner: Name, fund: int, x: Name)
    ensures ExcessOf(s.(funds := s.funds[owner := fund]), x) == ExcessOf(s, x) + If(x == owner, fund - At(s.funds, owner))
  {
    hide Due, Sum, FundOf, Unclaimed, Amount;
  }

  lemma LoanFundPut(s: State, kind: Kind, n: nat, loan: Loan, x: Name)
    requires n in s.loans.Of(kind) ==> s.loans.Of(kind)[n].from == loan.from
    ensures ExcessOf(s.(loans := s.loans.With(kind, s.loans.Of(kind)[n := loan])), x)
            == ExcessOf(s, x) + If(x == loan.from, loan.balance - FundIn(s.loans.Of(kind), n))
  {
    hide Due, Sum, Unclaimed, Amount;
    SumPut(s.loans.Of(kind), FundOf(x), n, loan);
  }

  lemma LoanFundDrop(s: State, kind: Kind, n: nat, x: Name)
    requires n in s.loans.Of(kind)
    ensures var loan := s.loans.Of(kind)[n];
            ExcessOf(s.(loans := s.loans.With(kind, s.loans.Of(kind) - {n})), x)
            == ExcessOf(s, x) - If(x == loan.from, loan.balance)
  {
    hide Due, Sum, Unclaimed, Amount;
    SumDrop(s.loans.Of(kind), FundOf(x), n);
  }

  lemma OrderDrop(s: State, owner: Name, x: Name)
    ensures ExcessOf(s.(orders := s.orders - {owner}), x) == ExcessOf(s, x) - If(x == owner, Amount(Unclaimed(s.orders, owner)))
  {
    hide Due, Sum, FundOf;
  }

  lemma OrderPut(s: State, owner: Name, o: Order, x: Name)
    ensures ExcessOf(s.(orders := s.orders[owner := o]), x)
            == ExcessOf(s, x) + If(x == owner, (if o.open then 0 else o.proceeds) - Amount(Unclaimed(s.orders, owner)))
  {
    hide Due, Sum, FundOf;
  }

  lemma AsideShifts(s: State, t: State, x: Name)
    requires Aside(s, t)
    ensures ExcessOf(t, x) == ExcessOf(s, x)
  {
    hide Excess;
  }

  // ---------------------------------------------------------------------------------------------
  // Settling.

  lemma ToFundShifts(s: State, owner: Name, amount: int, x: Name)
    ensures Shifts(s, ToFund(s, owner, amount), x, If(x == owner, amount))
  {
    hide ExcessOf;
    FundPut(s, owner, At(s.funds, owner) + amount, x);
  }

  lemma FromFundShifts(s: State, owner: Name, amount: int, x: Name)
    ensures Shifts(s, FromFund(s, owner, amount), x, -If(x == owner, amount))
  {
    hide ExcessOf;
    if owner in s.funds {
      FundPut(s, owner, s.funds[owner] - amount, x);
    }
  }

  lemma CreditShifts(s: State, owner: Name, amount: int, filled: seq<int>, x: Name)
    requires 0 <= amount
    ensures Shifts(s, Credit(s, owner, amount, filled), x, If(x == owner, amount))
  {
    hide ExcessOf, ToFund, Credited;
    var t := LogCredit(s, owner, filled);
    AsideShifts(s, t, x);
    ToFundShifts(t, owner, amount, x);
  }

  lemma UpdateAccountShifts(s: State, owner: Name, proceeds: int, stake: int, force: bool, x: Name)
    requires 0 <= proceeds + Amount(Unclaimed(s.orders, owner))
    ensures Shifts(s, UpdateAccount(s, owner, proceeds, stake, force), x, If(x == owner, proceeds))
  {
    hide ExcessOf, Credit, ChangeVotes, Amount;
    var (t, filled, change) := ClaimOrder(s, owner);
    var claimed := Amount(filled);
    assert ExcessOf(t, x) == ExcessOf(s, x) - If(x == owner, claimed) by {
      ClaimShifts(s, owner, x);
    }
    CreditShifts(t, owner, proceeds + claimed, filled, x);
    var u := Credit(t, owner, proceeds + claimed, filled);
    if u.Ok? {
      ChangeVotesFrame(u.value, owner, stake + change);
      var v := ChangeVotes(u.value, owner, stake + change);
      if v.Ok? {
        AsideShifts(u.value, v.value, x);
      }
    }
  }

  lemma ClaimShifts(s: State, owner: Name, x: Name)
    ensures var (t, filled, change) := ClaimOrder(s, owner);
            && ExcessOf(t, x) == ExcessOf(s, x) - If(x == owner, Amount(filled))
            && filled == Unclaimed(s.orders, owner)
  {
    hide ExcessOf;
    OrderDrop(s, owner, x);
  }

  // ---------------------------------------------------------------------------------------------
  // Orders.

  /** A sale is owed to the seller until it is credited. */
  lemma FillOrderShifts(s: State, owner: Name, rex: int, x: Name)
    requires owner in s.balances
    ensures var r := FillOrder(s, owner, rex);
            r.Ok? ==>
              && r.value.0.orders == s.orders
              && ExcessOf(r.value.0, x)
                 == ExcessOf(s, x) - (if x == owner && r.value.1.Some? then r.value.1.value.0 else 0)
  {
    hide ExcessOf, Worth, Sold, Record;
    if s.pool.Some? && s.pool.value.rex != 0 {
      var filled := Fill(s.pool.value, rex).value;
      if filled.Some? {
        var (q, proceeds) := filled.value;
        var stake := Worth(s.pool.value, s.balances[owner].rex) - proceeds;
        var t := s.(pool := Some(q), balances := s.balances[owner := Sold(s.balances[owner], stake, rex)],
                    log := s.log.(sales := s.log.sales + [Sale(owner, rex)]));
        AsideShifts(s, t, x);
        RecordShifts(t, owner, FromSale, proceeds, x);
        RecordQuiet(t, owner, FromSale, proceeds);
      }
    }
  }

  lemma FillQueuedShifts(s: State, owner: Name, x: Name)
    requires owner in s.orders && s.orders[owner].open
    ensures Shifts(s, FillQueued(s, owner), x, 0)
  {
    hide ExcessOf, FillOrder;
    if owner in s.balances {
      var o := s.orders[owner];
      FillOrderShifts(s, owner, o.requested, x);
      var r := FillOrder(s, owner, o.requested);
      if r.Ok? && r.value.1.Some? {
        var (t, filled) := r.value;
        var (proceeds, change) := filled.value;
        var closed := o.(proceeds := proceeds, stakeChange := change, open := false);
        OrderPut(t, owner, closed, x);
        var u := t.(orders := t.orders[owner := closed]);
        AsideShifts(u, FillQueued(s, owner).value, x);
      }
    }
  }

  lemma {:induction false} FillOrdersShifts(s: State, queue: seq<Name>, max: nat, x: Name)
    ensures Shifts(s, FillOrders(s, queue, max), x, 0)
    decreases max
  {
    hide FillQueued, ExcessOf;
    if max > 0 && queue != [] && queue[0] in s.orders && s.orders[queue[0]].open {
      FillQueuedShifts(s, queue[0], x);
      var t := FillQueued(s, queue[0]);
      if t.Ok? {
        FillOrdersShifts(t.value, queue[1..], max - 1, x);
      }
    }
  }

  // ---------------------------------------------------------------------------------------------
  // Loans.

  lemma LimitsShifts(s: State, kind: Kind, receiver: Name, delta: int, x: Name)
    ensures Shifts(s, LimitsOf(s, kind, receiver, delta), x, 0)
  {
    hide ExcessOf, LimitsOf;
    LimitsFrame(s, kind, receiver, delta);
    var r := LimitsOf(s, kind, receiver, delta);
    if r.Ok? {
      AsideShifts(s, r.value, x);
    }
  }

  /** A renewal is paid for out of the loan's own fund. */
  lemma RenewShifts(s: State, kind: Kind, n: nat, q: Pool, rented: int, x: Name)
    requires n in s.loans.Of(kind)
    ensures Shifts(s, Renew(s, kind, n, q, rented), x, 0)
  {
    hide LimitsOf, AddLoan, ExcessOf, Record;
    var loan := s.loans.Of(kind)[n];
    var renewed := loan.(staked := rented, expiration := loan.expiration + LOAN_TERM, balance := loan.balance - loan.payment);
    LoanFundPut(s, kind, n, renewed, x);
    var t := s.(loans := s.loans.With(kind, s.loans.Of(kind)[n := renewed]));
    var u := t.(pool := Some(AddLoan(q, loan.payment, rented, false)));
    AsideShifts(t, u, x);
    RecordShifts(u, loan.from, ForRenewal, loan.payment, x);
    LimitsShifts(Record(u, loan.from, ForRenewal, loan.payment), kind, loan.receiver, rented - loan.staked, x);
  }

  lemma CloseLoanShifts(s: State, kind: Kind, n: nat, q: Pool, x: Name)
    requires n in s.loans.Of(kind) && 0 <= s.loans.Of(kind)[n].balance
    ensures Shifts(s, CloseLoan(s, kind, n, q), x, 0)
  {
    hide LimitsOf, Credit, ExcessOf;
    var loan := s.loans.Of(kind)[n];
    LoanFundDrop(s, kind, n, x);
    var t := s.(loans := s.loans.With(kind, s.loans.Of(kind) - {n}));
    var u := t.(pool := Some(q));
    AsideShifts(t, u, x);
    CreditShifts(u, loan.from, loan.balance, [], x);
    var v := Credit(u, loan.from, loan.balance, []);
    if v.Ok? {
      LimitsShifts(v.value, kind, loan.receiver, -loan.staked, x);
    }
  }

  lemma ProcessLoanShifts(s: State, c: Context, kind: Kind, n: nat, x: Name)
    requires Sound(s, c) && n in s.loans.Of(kind)
    ensures Shifts(s, ProcessLoan(s, kind, n), x, 0)
  {
    hide Sound, RemoveLoan, BancorOutput, LoansAvailable, Renew, CloseLoan, ExcessOf;
    LoanBalance(s, c, kind, n);
    if s.pool.Some? {
      var q := RemoveLoan(s.pool.value, s.loans.Of(kind)[n].staked);
      if q.Ok? {
        var rented := BancorOutput(q.value.rent, q.value.unlent, s.loans.Of(kind)[n].payment);
        if rented.Ok? {
          RenewShifts(s, kind, n, q.value, rented.value, x);
        }
        CloseLoanShifts(s, kind, n, q.value, x);
      }
    }
  }

  lemma {:induction false} ProcessLoansShifts(s: State, c: Context, kind: Kind, max: nat, x: Name)
    requires Sound(s, c)
    ensures Shifts(s, ProcessLoans(s, kind, max), x, 0)
    decreases max
  {
    hide Sound, ProcessLoan, Expired, ExcessOf;
    var expired := Expired(s.loans.Of(kind), s.now);
    if max > 0 && expired.Some? {
      ProcessLoanKeeps(s, c, kind, expired.value);
      ProcessLoanShifts(s, c, kind, expired.value, x);
      var t := ProcessLoan(s, kind, expired.value);
      if t.Ok? {
        ProcessLoansShifts(t.value, c, kind, max - 1, x);
      }
    }
  }

  lemma PayShifts(s: State, from: Name, to: Name, quantity: int, shortage: Error, x: Name)
    ensures Shifts(s, Pay(s, from, to, quantity, shortage), x, 0)
  {
    hide ExcessOf, Pay;
    PayFrame(s, from, to, quantity, shortage);
    var r := Pay(s, from, to, quantity, shortage);
    if r.Ok? {
      AsideShifts(s, r.value, x);
    }
  }

  lemma ChannelShifts(s: State, from: Name, amount: int, x: Name)
    ensures Shifts(s, ChannelToRex(s, from, amount), x, 0)
  {
    hide ExcessOf, Pay, Channel;
    if RexAvailable(s) {
      var t := s.(pool := Some(Channel(s.pool.value, amount)));
      AsideShifts(s, t, x);
      PayShifts(t, from, REX_ACCOUNT, amount, Rejected, x);
    }
  }

  lemma ChannelNamebidsShifts(s: State, x: Name)
    ensures Shifts(s, ChannelNamebids(s), x, 0)
  {
    hide ExcessOf, ChannelToRex;
    if s.pool.Some? && s.pool.value.namebid > 0 {
      ChannelShifts(s, NAMES_ACCOUNT, s.pool.value.namebid, x);
      var t := ChannelToRex(s, NAMES_ACCOUNT, s.pool.value.namebid);
      if t.Ok? {
        AsideShifts(t.value, ChannelNamebids(s).value, x);
      }
    }
  }

  /** Maintenance closes, renews and fills, and leaves each account with what it should have. */
  lemma RunRexShifts(s: State, c: Context, max: nat, x: Name)
    requires Sound(s, c)
    ensures Shifts(s, RunRex(s, max), x, 0)
  {
    hide Sound, ChannelNamebids, ProcessLoans, FillOrders, Queue, ExcessOf;
    ChannelNamebidsKeeps(s, c);
    ChannelNamebidsShifts(s, x);
    var r1 := ChannelNamebids(s);
    if r1.Ok? {
      ProcessLoansKeep(r1.value, c, Cpu, max);
      ProcessLoansShifts(r1.value, c, Cpu, max, x);
      var r2 := ProcessLoans(r1.value, Cpu, max);
      if r2.Ok? {
        ProcessLoansShifts(r2.value, c, Net, max, x);
        var r3 := ProcessLoans(r2.value, Net, max);
        if r3.Ok? {
          FillOrdersShifts(r3.value, Queue(r3.value.orders), max, x);
        }
      }
    }
  }

  // ---------------------------------------------------------------------------------------------
  // Each action.

  lemma ClaimNonNegative(s: State, c: Context, owner: Name)
    requires Sound(s, c)
    ensures 0 <= Amount(Unclaimed(s.orders, owner))
  {
    hide PoolOk, Later, Solvent, HoldingsOk, Covered, FundsOk, DelegationsOk, Agree, StakeBacked, Tracked, NoEarlySale,
         CreditedOnce, NoDust;
    assert owner in s.orders ==> OrderOk(s.orders[owner], s.now);
  }

  lemma SettleShifts(s: State, c: Context, owner: Name, stake: int, force: bool, x: Name)
    requires Sound(s, c)
    ensures Shifts(s, UpdateAccount(s, owner, 0, stake, force), x, 0)
  {
    hide Sound, UpdateAccount, ExcessOf, Amount;
    ClaimNonNegative(s, c, owner);
    UpdateAccountShifts(s, owner, 0, stake, force, x);
  }

  lemma DepositShifts(s: State, owner: Name, amount: int, x: Name)
    ensures Shifts(s, DepositTo(s, owner, amount), x, 0)
  {
    hide Pay, ToFund, Record, ExcessOf;
    PayShifts(s, owner, REX_ACCOUNT, amount, Rejected, x);
    var r := Pay(s, owner, REX_ACCOUNT, amount, Rejected);
    if r.Ok? {
      RecordShifts(r.value, owner, PaidIn, amount, x);
      ToFundShifts(Record(r.value, owner, PaidIn, amount), owner, amount, x);
    }
  }

  lemma WithdrawShifts(s: State, c: Context, owner: Name, amount: int, x: Name)
    requires Sound(s, c)
    ensures Shifts(s, WithdrawFrom(s, owner, amount), x, 0)
  {
    hide Sound, UpdateAccount, FromFund, Pay, Record, ExcessOf;
    SettleShifts(s, c, owner, 0, false, x);
    var r1 := UpdateAccount(s, owner, 0, 0, false);
    if r1.Ok? {
      FromFundShifts(r1.value, owner, amount, x);
      var r2 := FromFund(r1.value, owner, amount);
      if r2.Ok? {
        RecordShifts(r2.value, owner, PaidOut, amount, x);
        PayShifts(Record(r2.value, owner, PaidOut, amount), REX_ACCOUNT, owner, amount, Broken, x);
      }
    }
  }

  lemma BuyInShifts(s: State, owner: Name, payment: int, x: Name)
    ensures var r := BuyIn(s, owner, payment); r.Ok? ==> ExcessOf(r.value.0, x) == ExcessOf(s, x)
  {
    hide ExcessOf;
    BuyInAside(s, owner, payment);
    var r := BuyIn(s, owner, payment);
    if r.Ok? {
      AsideShifts(s, r.value.0, x);
    }
  }

  lemma BuyInAside(s: State, owner: Name, payment: int)
    ensures var r := BuyIn(s, owner, payment); r.Ok? ==> Aside(s, r.value.0)
  {
    hide Buy, Worth, AddPurchase, Maturity;
  }

  lemma BuyRexShifts(s: State, c: Context, amount: int, voted: bool, x: Name)
    requires Sound(s, c) && Clear(c)
    ensures Shifts(s, BuyRex(s, c.voter, amount, voted), x, 0)
  {
    hide Sound, FromFund, BuyIn, RunRex, UpdateAccount, Record, ExcessOf;
    if 0 < amount && c.voter in s.staked {
      FromFundKeeps(s, c, c.voter, amount);
      FromFundShifts(s, c.voter, amount, x);
      var r1 := FromFund(s, c.voter, amount);
      if r1.Ok? {
        StillRegistered(s, c.voter, amount);
        RecordKeeps(r1.value, c.(money := amount), c.voter, ForShares, amount);
        RecordShifts(r1.value, c.voter, ForShares, amount, x);
        RecordFrame(r1.value, c.voter, ForShares, amount);
        var u := Record(r1.value, c.voter, ForShares, amount);
        BuyInKeeps(u, c.(money := amount), amount);
        BuyInShifts(u, c.voter, amount, x);
        var (t, change) := BuyIn(u, c.voter, amount).value;
        BoughtThenSettled(t, c.(stake := change), change, false, x);
      }
    }
  }

  lemma StillRegistered(s: State, owner: Name, amount: int)
    ensures var r := FromFund(s, owner, amount); r.Ok? ==> r.value.staked == s.staked
  {
  }

  lemma RecordFrame(s: State, owner: Name, reason: Reason, amount: int)
    ensures Record(s, owner, reason, amount).staked == s.staked
  {
  }

  /** Maintenance, then settling: the end of most actions. */
  lemma BoughtThenSettled(s: State, c: Context, stake: int, force: bool, x: Name)
    requires Sound(s, c) && c.filled == [] && !c.selling
    ensures var r := RunRex(s, 2);
            r.Ok? ==> Sound(r.value, c) && ExcessOf(r.value, x) == ExcessOf(s, x)
                      && Shifts(s, UpdateAccount(r.value, c.voter, 0, stake, force), x, 0)
  {
    hide Sound, RunRex, UpdateAccount, ExcessOf;
    RunRexKeeps(s, c, 2);
    RunRexShifts(s, c, 2, x);
    var r := RunRex(s, 2);
    if r.Ok? {
      SettleShifts(r.value, c, c.voter, stake, force, x);
    }
  }

  lemma TakeDelegatedShifts(s: State, owner: Name, receiver: Name, net: int, cpu: int, x: Name)
    ensures Shifts(s, TakeDelegated(s, owner, receiver, net, cpu), x, 0)
  {
    hide ExcessOf, UpdateLimits, PutWeights, Pay;
    var k := Edge(owner, receiver);
    if k in s.delegated {
      var w := Weights(s.delegated[k].net - net, s.delegated[k].cpu - cpu);
      var t := s.(delegated := PutWeights(s.delegated, owner, receiver, w));
      AsideShifts(s, t, x);
      UpdateLimitsFrame(t, receiver, -net, -cpu);
      var u := UpdateLimits(t, receiver, -net, -cpu);
      if u.Ok? {
        AsideShifts(t, u.value, x);
        PayShifts(u.value, STAKE_ACCOUNT, REX_ACCOUNT, net + cpu, Broken, x);
      }
    }
  }

  lemma UnstakeToRexShifts(s: State, c: Context, receiver: Name, net: int, cpu: int, voted: bool, x: Name)
    requires Sound(s, c) && Clear(c)
    ensures Shifts(s, UnstakeToRex(s, c.voter, receiver, net, cpu, voted), x, 0)
  {
    hide Sound, TakeDelegated, BuyIn, AddDrift, RunRex, UpdateAccount, ExcessOf;
    if 0 <= net && 0 <= cpu && 0 < net + cpu && c.voter in s.staked {
      TakeDelegatedKeeps(s, c, receiver, net, cpu);
      TakeDelegatedShifts(s, c.voter, receiver, net, cpu, x);
      var r1 := TakeDelegated(s, c.voter, receiver, net, cpu);
      if r1.Ok? {
        var d := c.(money := net + cpu, stake := -net - cpu);
        BuyInKeeps(r1.value, d, net + cpu);
        BuyInShifts(r1.value, c.voter, net + cpu, x);
        var (t, change) := BuyIn(r1.value, c.voter, net + cpu).value;
        AddDriftKeeps(t, c.(stake := change - net - cpu), net + cpu - change);
        var u := AddDrift(t, c.voter, net + cpu - change);
        DriftAside(t, c.voter, net + cpu - change);
        AsideShifts(t, u, x);
        BoughtThenSettled(u, c, 0, true, x);
      }
    }
  }

  lemma DriftAside(s: State, owner: Name, amount: int)
    ensures Aside(s, AddDrift(s, owner, amount))
  {
  }

  lemma EnqueueShifts(s: State, owner: Name, rex: int, x: Name)
    requires owner in s.orders ==> s.orders[owner].open
    ensures ExcessOf(Enqueue(s, owner, rex), x) == ExcessOf(s, x)
  {
    hide ExcessOf;
    var o := if owner in s.orders then s.orders[owner].(requested := s.orders[owner].requested + rex)
             else Order(rex, 0, 0, s.now, true);
    OrderPut(s, owner, o, x);
  }

  lemma SellMaturedShifts(s: State, c: Context, rex: int, x: Name)
    requires Sound(s, c) && Clear(c) && CanSell(s, c.voter, rex)
    ensures Shifts(s, SellMatured(s, c.voter, rex), x, 0)
  {
    hide Sound, FillOrder, UpdateAccount, Enqueue, InOrder, ExcessOf, Amount;
    var owner := c.voter;
    FillOrderKeeps(s, c, rex);
    FillOrderShifts(s, owner, rex, x);
    ClaimNonNegative(s, c, owner);
    var (t, filled) := FillOrder(s, owner, rex).value;
    if filled.Some? {
      UpdateAccountShifts(t, owner, filled.value.0, filled.value.1, false, x);
    } else {
      SettleShifts(s, c, owner, 0, false, x);
      UpdateAccountFrame(s, owner, 0, 0, false);
      var r := UpdateAccount(s, owner, 0, 0, false);
      if r.Ok? {
        EnqueueShifts(r.value, owner, rex, x);
        EnqueuedOrder(r.value, owner, rex);
      }
    }
  }

  lemma SetBalanceAside(s: State, owner: Name, b: Balance)
    ensures Aside(s, SetBalance(s, owner, b))
  {
  }

  lemma SellRexShifts(s: State, c: Context, rex: int, x: Name)
    requires Sound(s, c) && Clear(c)
    ensures Shifts(s, SellRex(s, c.voter, rex), x, 0)
  {
    hide Sound, RunRex, Mature, SellMatured, ExcessOf;
    RunRexKeeps(s, c, 2);
    RunRexShifts(s, c, 2, x);
    var r := RunRex(s, 2);
    if r.Ok? && c.voter in r.value.balances && rex > 0 {
      var t := r.value;
      MatureKeepsBooks(t, c);
      var b := Mature(t.balances[c.voter], Sec(t.now));
      var u := SetBalance(t, c.voter, b);
      SetBalanceAside(t, c.voter, b);
      AsideShifts(t, u, x);
      if rex <= b.matured {
        SellMaturedShifts(u, c, rex, x);
      }
    }
  }

  lemma CancelShifts(s: State, owner: Name, x: Name)
    ensures Shifts(s, CancelOrder(s, owner), x, 0)
  {
    hide ExcessOf;
    OrderDrop(s, owner, x);
  }

  lemma OpenLoanShifts(s: State, kind: Kind, from: Name, receiver: Name, payment: int, fund: int, rented: int, x: Name)
    requires s.pool.Some?
    ensures Shifts(s, OpenLoan(s, kind, from, receiver, payment, fund, rented), x, If(x == from, fund))
  {
    hide ExcessOf, LimitsOf, AddLoan;
    var p := AddLoan(s.pool.value, payment, rented, true);
    var n := p.loanNum;
    if n !in s.loans.Of(kind) {
      var loan := Loan(from, receiver, payment, fund, rented, s.now + LOAN_TERM);
      LoanFundPut(s, kind, n, loan, x);
      var t := s.(loans := s.loans.With(kind, s.loans.Of(kind)[n := loan]));
      AsideShifts(t, t.(pool := Some(p)), x);
      LimitsShifts(t.(pool := Some(p)), kind, receiver, rented, x);
    }
  }

  /** A loan is paid for with its rent; its fund is still the payer's. */
  lemma RentShifts(s: State, c: Context, kind: Kind, receiver: Name, payment: int, fund: int, x: Name)
    requires Sound(s, c) && Clear(c)
    ensures Shifts(s, Rent(s, kind, c.voter, receiver, payment, fund), x, 0)
  {
    hide Sound, RunRex, FrontOpen, BancorOutput, OpenLoan, FromFund, Record, ExcessOf;
    RunRexShifts(s, c, 2, x);
    var r1 := RunRex(s, 2);
    if r1.Ok? && LoansAvailable(r1.value) {
      FromFundShifts(r1.value, c.voter, payment + fund, x);
      FromFundFrame(r1.value, c.voter, payment + fund);
      var r2 := FromFund(r1.value, c.voter, payment + fund);
      if r2.Ok? {
        var t := r2.value;
        RecordShifts(t, c.voter, ForRent, payment, x);
        RecordQuiet(t, c.voter, ForRent, payment);
        var rented := BancorOutput(t.pool.value.rent, t.pool.value.unlent, payment);
        if rented.Ok? {
          OpenLoanShifts(Record(t, c.voter, ForRent, payment), kind, c.voter, receiver, payment, fund, rented.value, x);
        }
      }
    }
  }

  lemma AddToLoanShifts(s: State, kind: Kind, n: nat, amount: int, x: Name)
    requires n in s.loans.Of(kind)
    ensures ExcessOf(AddToLoan(s, kind, n, amount), x) == ExcessOf(s, x) + If(x == s.loans.Of(kind)[n].from, amount)
  {
    hide ExcessOf;
    var loan := s.loans.Of(kind)[n];
    LoanFundPut(s, kind, n, loan.(balance := loan.balance + amount), x);
  }

  lemma FundLoanShifts(s: State, kind: Kind, from: Name, n: nat, payment: int, x: Name)
    ensures Shifts(s, FundLoan(s, kind, from, n, payment), x, 0)
  {
    hide FromFund, AddToLoan, ExcessOf;
    FromFundShifts(s, from, payment, x);
    var r := FromFund(s, from, payment);
    if r.Ok? && Current(r.value, kind, from, n) {
      AddToLoanShifts(r.value, kind, n, payment, x);
    }
  }

  lemma DefundLoanShifts(s: State, kind: Kind, from: Name, n: nat, amount: int, x: Name)
    ensures Shifts(s, DefundLoan(s, kind, from, n, amount), x, 0)
  {
    hide ToFund, AddToLoan, ExcessOf;
    if Current(s, kind, from, n) {
      AddToLoanShifts(s, kind, n, -amount, x);
      ToFundShifts(AddToLoan(s, kind, n, -amount), from, amount, x);
    }
  }

  lemma UpdateRexShifts(s: State, c: Context, x: Name)
    requires Sound(s, c) && Clear(c)
    ensures Shifts(s, UpdateRex(s, c.voter), x, 0)
  {
    hide Sound, RunRex, Worth, UpdateAccount, Mature, ExcessOf;
    RunRexKeeps(s, c, 2);
    RunRexShifts(s, c, 2, x);
    var r1 := RunRex(s, 2);
    if r1.Ok? && c.voter in r1.value.balances {
      var t := r1.value;
      PresentStakeSound(t, c, c.voter);
      var stake := PresentStake(t, c.voter);
      RevalueKeepsBooks(t, c, stake);
      var u := SetVoteStake(t, c.voter, stake);
      AsideShifts(t, u, x);
      var d := c.(stake := stake - t.balances[c.voter].voteStake);
      SettleShifts(u, d, c.voter, d.stake, true, x);
      var r2 := UpdateAccount(u, c.voter, 0, d.stake, true);
      if r2.Ok? {
        var m := Mature(HoldingOf(r2.value.balances, c.voter), Sec(r2.value.now));
        AsideShifts(r2.value, SetBalance(r2.value, c.voter, m), x);
      }
    }
  }

  lemma RowsShift(s: State, c: Context, rex: int, x: Name)
    requires Sound(s, c) && Clear(c)
    ensures Shifts(s, ConsolidateRex(s, c.voter), x, 0) && Shifts(s, MvToSavings(s, c.voter, rex), x, 0)
  {
    hide Sound, RunRex, UpdateAccount, Consolidate, MoveToSavings, ExcessOf;
    BoughtThenSettled(s, c, 0, false, x);
    var r1 := RunRex(s, 2);
    if r1.Ok? && c.voter in r1.value.balances {
      var r2 := UpdateAccount(r1.value, c.voter, 0, 0, false);
      if r2.Ok? {
        var u := r2.value;
        var b, inOrder := HoldingOf(u.balances, c.voter), InOrder(r1.value, c.voter);
        AsideShifts(u, SetBalance(u, c.voter, Consolidate(b, inOrder, Sec(u.now))), x);
        var m := MoveToSavings(b, rex, inOrder, Sec(u.now));
        if m.Ok? {
          AsideShifts(u, SetBalance(u, c.voter, m.value), x);
        }
      }
    }
  }

  lemma MvFromSavingsShifts(s: State, c: Context, rex: int, x: Name)
    requires Sound(s, c) && Clear(c)
    ensures Shifts(s, MvFromSavings(s, c.voter, rex), x, 0)
  {
    hide Sound, RunRex, UpdateAccount, MoveFromSavings, ExcessOf;
    RunRexKeeps(s, c, 2);
    RunRexShifts(s, c, 2, x);
    var r1 := RunRex(s, 2);
    if r1.Ok? && c.voter in r1.value.balances && rex > 0 {
      MoveFromSavingsKeepsBooks(r1.value, c, rex);
      var b := MoveFromSavings(r1.value.balances[c.voter], rex, Sec(r1.value.now));
      if b.Ok? {
        var u := SetBalance(r1.value, c.voter, b.value);
        AsideShifts(r1.value, u, x);
        SettleShifts(u, c, c.voter, 0, false, x);
      }
    }
  }

  lemma DropFundShifts(s: State, owner: Name, x: Name)
    ensures ExcessOf(DropFund(s, owner), x) == ExcessOf(s, x)
  {
    hide Due, Sum, FundOf, Amount, Unclaimed, Borrows;
  }

  lemma DropBalanceAside(s: State, owner: Name)
    ensures var r := DropBalance(s, owner); r.Ok? ==> Aside(s, r.value)
  {
  }

  lemma CloseRexShifts(s: State, c: Context, x: Name)
    requires Sound(s, c) && Clear(c)
    ensures Shifts(s, CloseRex(s, c.voter), x, 0)
  {
    hide Sound, RunRex, UpdateAccount, DropFund, DropBalance, ExcessOf;
    BoughtThenSettled(s, c, 0, false, x);
    SettleShifts(s, c, c.voter, 0, false, x);
    var r1 := if s.pool.Some? then RunRex(s, 2) else Ok(s);
    if r1.Ok? {
      var r2 := UpdateAccount(r1.value, c.voter, 0, 0, false);
      if r2.Ok? {
        DropFundShifts(r2.value, c.voter, x);
        var t := DropFund(r2.value, c.voter);
        DropBalanceAside(t, c.voter);
        var r3 := DropBalance(t, c.voter);
        if r3.Ok? {
          AsideShifts(t, r3.value, x);
        }
      }
    }
  }

  // ---------------------------------------------------------------------------------------------
  // Actions beside the exchange.

  lemma UpdateRexStakeShifts(s: State, voter: Name, x: Name)
    ensures ExcessOf(UpdateRexStake(s, voter), x) == ExcessOf(s, x)
  {
    hide ExcessOf, Worth;
    if voter in s.balances && RexAvailable(s) {
      var stake := Worth(s.pool.value, s.balances[voter].rex);
      var change := stake - s.balances[voter].voteStake;
      var t := SetVoteStake(s, voter, stake);
      AsideShifts(s, t, x);
      if change != 0 && voter in s.staked {
        AsideShifts(t, t.(staked := s.staked[voter := s.staked[voter] + change]), x);
      }
    }
  }

  lemma SettleStakeShifts(s: State, source: Name, from: Name, receiver: Name, net: int, cpu: int, transfer: bool, x: Name)
    ensures Shifts(s, SettleStake(s, source, from, receiver, net, cpu, transfer), x, 0)
  {
    hide Settlement, Pay, ExcessOf;
    var settled := Settlement(s, from, receiver, net, cpu, transfer);
    var t := LogUnstaking(s.(refunds := settled.0), from, -(net + cpu));
    AsideShifts(s, t, x);
    PayShifts(t, source, STAKE_ACCOUNT, settled.1, Rejected, x);
  }

  lemma ChangeBwShifts(s: State, source: Name, receiver: Name, net: int, cpu: int, transfer: bool, x: Name)
    ensures Shifts(s, ChangeBw(s, source, receiver, net, cpu, transfer), x, 0)
  {
    hide UpdateLimits, SettleStake, UpdateRexStake, ChangeVotes, Abs, PutWeights, ExcessOf;
    var from := if transfer then receiver else source;
    var r1 := Delegated(s, from, receiver, net, cpu);
    if r1.Ok? {
      AsideShifts(s, r1.value, x);
      UpdateLimitsFrame(r1.value, receiver, net, cpu);
      var r2 := UpdateLimits(r1.value, receiver, net, cpu);
      if r2.Ok? {
        AsideShifts(r1.value, r2.value, x);
        SettleStakeShifts(r2.value, source, from, receiver, net, cpu, transfer, x);
        var r3 := if source == STAKE_ACCOUNT then Ok(r2.value)
                  else SettleStake(r2.value, source, from, receiver, net, cpu, transfer);
        if r3.Ok? {
          var t := UpdateRexStake(r3.value, from);
          UpdateRexStakeShifts(r3.value, from, x);
          ChangeVotesFrame(t, from, net + cpu);
          var r4 := ChangeVotes(t, from, net + cpu);
          if r4.Ok? {
            AsideShifts(t, r4.value, x);
          }
        }
      }
    }
  }

  lemma ClaimRefundShifts(s: State, owner: Name, x: Name)
    ensures Shifts(s, ClaimRefund(s, owner), x, 0)
  {
    hide Pay, ExcessOf;
    if owner in s.refunds {
      var total := s.refunds[owner].net + s.refunds[owner].cpu;
      PayShifts(s, STAKE_ACCOUNT, owner, total, Broken, x);
      var r := Pay(s, STAKE_ACCOUNT, owner, total, Broken);
      var t := ClaimRefund(s, owner);
      if t.Ok? {
        AsideShifts(r.value, t.value, x);
      }
    }
  }

  lemma PoolFieldsShift(s: State, rent: int, bid: nat, x: Name)
    ensures Shifts(s, SetRex(s, rent), x, 0) && ExcessOf(AddNamebid(s, bid), x) == ExcessOf(s, x)
  {
    hide ExcessOf;
    if s.pool.Some? {
      AsideShifts(s, s.(pool := Some(s.pool.value.(rent := rent))), x);
      AsideShifts(s, s.(pool := Some(s.pool.value.(namebid := s.pool.value.namebid + bid))), x);
    }
  }

  lemma NewRowsShift(s: State, owner: Name, bytes: nat, x: Name)
    ensures ExcessOf(Register(s, owner), x) == ExcessOf(s, x) && ExcessOf(SetRam(s, owner, bytes), x) == ExcessOf(s, x)
  {
    hide ExcessOf;
    AsideShifts(s, s.(staked := s.staked[owner := 0]), x);
    AsideShifts(s, s.(resources := SetRam(s, owner, bytes).resources), x);
  }

  lemma AdvanceShifts(s: State, now: int, x: Name)
    ensures Shifts(s, Advance(s, now), x, 0)
  {
    hide ExcessOf, Maturity;
    AsideShifts(s, s.(now := now), x);
  }

  /** Actions that change none of the tables in question. */
  lemma OthersShift(s: State, a: Action, x: Name)
    requires a.ActSetRex? || a.ActNamebid? || a.ActRegister? || a.ActRam? || a.ActTime? || a.ActVote?
    ensures Shifts(s, Step(s, a), x, 0)
  {
    hide UpdateRexStake, SetRex, AddNamebid, Register, SetRam, Advance, ExcessOf;
    match a
    case ActVote(owner) => UpdateRexStakeShifts(s, owner, x);
    case ActSetRex(_, rent) => PoolFieldsShift(s, rent, 0, x);
    case ActNamebid(_, bid) => PoolFieldsShift(s, 0, bid, x);
    case ActRegister(owner) => NewRowsShift(s, owner, 0, x);
    case ActRam(owner, bytes) => NewRowsShift(s, owner, bytes, x);
    case ActTime(_, now) => AdvanceShifts(s, now, x);
  }

  lemma RexStepShifts(s: State, c: Context, a: Action, x: Name)
    requires Sound(s, c) && Clear(c) && c.voter == a.owner
    requires !a.ActSetRex? && !a.ActNamebid? && !a.ActRegister? && !a.ActRam? && !a.ActTime? && !a.ActVote?
    ensures Shifts(s, Step(s, a), x, 0)
  {
    hide Sound, DepositTo, WithdrawFrom, BuyRex, UnstakeToRex, SellRex, CancelOrder, Rent, FundLoan, DefundLoan, UpdateRex,
         RunRex, ConsolidateRex, MvToSavings, MvFromSavings, CloseRex, ClaimRefund, ChannelToRex, Pay, ChangeBw, Shifts;
    match a
    case Deposit(owner, amount) => DepositShifts(s, owner, amount, x);
    case Withdraw(owner, amount) => WithdrawShifts(s, c, owner, amount, x);
    case ActBuyRex(_, amount, voted) => BuyRexShifts(s, c, amount, voted, x);
    case ActUnstakeToRex(_, receiver, net, cpu, voted) => UnstakeToRexShifts(s, c, receiver, net, cpu, voted, x);
    case ActSellRex(_, rex) => SellRexShifts(s, c, rex, x);
    case ActCancelOrder(owner) => CancelShifts(s, owner, x);
    case ActRent(kind, _, receiver, payment, fund) => RentShifts(s, c, kind, receiver, payment, fund, x);
    case ActFundLoan(kind, owner, loan, payment) => FundLoanShifts(s, kind, owner, loan, payment, x);
    case ActDefundLoan(kind, owner, loan, amount) => DefundLoanShifts(s, kind, owner, loan, amount, x);
    case ActUpdateRex(_) => UpdateRexShifts(s, c, x);
    case ActRexExec(_, max) => RunRexShifts(s, c, max, x);
    case ActConsolidate(_) => RowsShift(s, c, 0, x);
    case ActMvToSavings(_, rex) => RowsShift(s, c, rex, x);
    case ActMvFromSavings(_, rex) => MvFromSavingsShifts(s, c, rex, x);
    case ActCloseRex(_) => CloseRexShifts(s, c, x);
    case ActDelegateBw(owner, receiver, net, cpu, transfer) =>
      ChangeBwShifts(s, owner, receiver, net, cpu, transfer, x);
      assert Step(s, a).Ok? ==> Step(s, a) == ChangeBw(s, owner, receiver, net, cpu, transfer);
      Refused(s, Step(s, a), x);
    case ActUndelegateBw(owner, receiver, net, cpu, _) =>
      ChangeBwShifts(s, owner, receiver, -net, -cpu, false, x);
      Refused(s, Step(s, a), x);
    case ActRefund(owner) => ClaimRefundShifts(s, owner, x);
    case ActFee(owner, amount) => ChannelShifts(s, owner, amount, x);
    case ActTransfer(owner, to, amount) => PayShifts(s, owner, to, amount, Rejected, x);
  }

  lemma Refused(s: State, r: Result<State>, x: Name)
    ensures r.Err? ==> Shifts(s, r, x, 0)
  {
  }

  /** No action leaves any account with more or less than it should have. */
  lemma StepShifts(s: State, a: Action, x: Name)
    requires Steady(s)
    ensures Shifts(s, Step(s, a), x, 0)
  {
    hide Sound, Step, Shifts;
    if a.ActSetRex? || a.ActNamebid? || a.ActRegister? || a.ActRam? || a.ActTime? || a.ActVote? {
      OthersShift(s, a, x);
    } else {
      AnyVoter(s, Idle(s, 0), a.owner);
      RexStepShifts(s, Idle(s, a.owner), a, x);
    }
  }

  lemma {:induction false} RunShifts(s: State, actions: seq<Action>, x: Name)
    requires Steady(s) && forall i :: 0 <= i < |actions| ==> Outside(actions[i])
    ensures Steady(Run(s, actions)) && ExcessOf(Run(s, actions), x) == ExcessOf(s, x)
    decreases |actions|
  {
    hide Sound, Step, Outside, ExcessOf;
    if actions != [] {
      var n := |actions| - 1;
      RunShifts(s, actions[..n], x);
      StepIsSteady(Run(s, actions[..n]), actions[n]);
      StepShifts(Run(s, actions[..n]), actions[n], x);
    }
  }

  /** A fresh chain holds nothing for anyone. */
  lemma NothingHeldFor(tokens: Tokens, now: int, x: Name)
    ensures ExcessOf(Genesis(tokens, now), x) == 0
  {
    var none: map<nat, Loan> := map[];
    SumZero(none, FundOf(x));
  }
}
