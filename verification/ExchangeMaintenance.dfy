/**
 What maintenance does, in figures: which expired loans it renews and on what terms, what becomes of the
 others, how far it gets, and when it can fail.
 */
module ExchangeMaintenance {
  import opened Basics
  import opened Ledger
  import opened RexPool
  import opened Exchange
  import opened ExchangeBooks
  import opened ExchangeParts
  import opened ExchangeLoans
  import opened ExchangeShares
  import opened ExchangeOrders
  import opened ExchangeRuns
  import opened ExchangeHistory
  import opened ExchangeTheorems
  import opened ExchangeQueue
  import SortedIndex

  // ---------------------------------------------------------------------------------------------
  // The price of a renewal.

  /** A pool and a loan as they are on sound books. */
  predicate Lends(p: Pool, loan: Loan) {
    0 <= p.unlent && 0 <= p.rent && 0 < loan.payment < loan.staked
  }

  /** total_rent once the loan's tokens are returned to the pool. */
  function RentLeft(p: Pool, loan: Loan): int
    requires Lends(p, loan)
  {
    p.rent - loan.staked * p.rent / (p.unlent + loan.staked)
  }

  lemma RentStays(p: Pool, loan: Loan)
    requires Lends(p, loan)
    ensures 0 <= RentLeft(p, loan)
  {
    BancorKeepsProduct(p.unlent, p.rent, loan.staked);
  }

  /** What its payment rents then. */
  function Rentable(p: Pool, loan: Loan): int
    requires Lends(p, loan)
  {
    RentStays(p, loan);
    loan.payment * (p.unlent + loan.staked) / (loan.payment + RentLeft(p, loan))
  }

  predicate NoneOpen(orders: map<Name, Order>) {
    forall a :: a in orders ==> !orders[a].open
  }

  /** A loan is renewed if it can pay, if its payment rents more than it is, and if nobody waits to sell. */
  predicate Renews(p: Pool, orders: map<Name, Order>, loan: Loan)
    requires Lends(p, loan)
  {
    loan.payment <= loan.balance && loan.payment < Rentable(p, loan) && NoneOpen(orders)
  }

  lemma PricedAt(p: Pool, loan: Loan)
    requires Lends(p, loan)
    ensures RemoveLoan(p, loan.staked)
            == Ok(p.(rent := RentLeft(p, loan), unlent := p.unlent + loan.staked, lent := p.lent - loan.staked,
                     lendable := p.unlent + p.lent))
    ensures BancorOutput(RentLeft(p, loan), p.unlent + loan.staked, loan.payment) == Ok(Rentable(p, loan))
  {
    RentStays(p, loan);
    NotNegative(loan.staked, p.rent);
    NotNegative(loan.payment, p.unlent + loan.staked);
  }

  lemma NotNegative(a: int, b: int)
    requires 0 <= a && 0 <= b
    ensures 0 <= a * b
  {
  }

  // ---------------------------------------------------------------------------------------------
  // One expired loan.

  /** The pool after a loan's turn. */
  function PoolAfter(p: Pool, orders: map<Name, Order>, loan: Loan): Pool
    requires Lends(p, loan)
  {
    if Renews(p, orders, loan) then
      var rented := Rentable(p, loan);
      p.(rent := RentLeft(p, loan) + loan.payment, unlent := p.unlent + loan.staked - rented + loan.payment,
         lent := p.lent - loan.staked + rented, lendable := p.unlent + p.lent + loan.payment)
    else
      p.(rent := RentLeft(p, loan), unlent := p.unlent + loan.staked, lent := p.lent - loan.staked,
         lendable := p.unlent + p.lent)
  }

  /** Its table: renewed for another thirty days, or gone. */
  function TableAfter(p: Pool, orders: map<Name, Order>, table: map<nat, Loan>, n: nat): map<nat, Loan>
    requires n in table && Lends(p, table[n])
  {
    var loan := table[n];
    if Renews(p, orders, loan) then
      table[n := loan.(staked := Rentable(p, loan), balance := loan.balance - loan.payment,
                       expiration := loan.expiration + 30 * 24 * 3600 * 1_000_000)]
    else table - {n}
  }

  /** What its receiver's bandwidth changes by. */
  function StakeAfter(p: Pool, orders: map<Name, Order>, loan: Loan): int
    requires Lends(p, loan)
  {
    (if Renews(p, orders, loan) then Rentable(p, loan) else 0) - loan.staked
  }

  ghost predicate TurnTaken(s: State, t: State, kind: Kind, n: nat)
    requires s.pool.Some? && n in s.loans.Of(kind) && Lends(s.pool.value, s.loans.Of(kind)[n])
  {
    var p, loan := s.pool.value, s.loans.Of(kind)[n];
    && t == s.(pool := Some(PoolAfter(p, s.orders, loan)),
               loans := s.loans.With(kind, TableAfter(p, s.orders, s.loans.Of(kind), n)),
               funds := t.funds, resources := t.resources, log := t.log)
    && (forall x :: At(t.funds, x) == At(s.funds, x) + (if x == loan.from && !Renews(p, s.orders, loan) then loan.balance else 0))
    && (forall k, x :: Limit(t.resources, k, x)
                       == Limit(s.resources, k, x) + (if k == kind && x == loan.receiver then StakeAfter(p, s.orders, loan) else 0))
    && |t.log.deals| == |s.log.deals| + (if Renews(p, s.orders, loan) then 1 else 0)
  }

  lemma LimitsFigures(s: State, kind: Kind, receiver: Name, delta: int)
    ensures var r := LimitsOf(s, kind, receiver, delta);
            && r != Err(Rejected) && r != Err(Endless)
            && (r.Ok? ==>
                  && r.value == s.(resources := r.value.resources)
                  && forall k, x :: Limit(r.value.resources, k, x)
                                    == Limit(s.resources, k, x) + (if k == kind && x == receiver then delta else 0))
  {
  }

  lemma SoundLends(s: State, c: Context, kind: Kind, n: nat)
    requires Sound(s, c) && n in s.loans.Of(kind)
    ensures s.pool.Some? && s.pool.value.rex > 0 && Lends(s.pool.value, s.loans.Of(kind)[n])
    ensures LoansAvailable(s) <==> NoneOpen(s.orders)
    ensures 0 <= s.loans.Of(kind)[n].balance
  {
    hide Later, Solvent, HoldingsOk, OrdersOk, Covered, FundsOk, DelegationsOk, Agree, StakeBacked, Tracked, NoEarlySale,
         CreditedOnce, NoDust, LoansAvailable, Lent;
    LoansAvailableIff(s, c);
    SoundPool(s, c);
    AlwaysPriced(s.pool.value, s.loans, kind, n);
    assert LoanOk(s.loans.Of(kind)[n]);
  }

  lemma RenewTurn(s: State, kind: Kind, n: nat, q: Pool)
    requires s.pool.Some? && n in s.loans.Of(kind) && Lends(s.pool.value, s.loans.Of(kind)[n])
    requires RemoveLoan(s.pool.value, s.loans.Of(kind)[n].staked) == Ok(q)
    requires Renews(s.pool.value, s.orders, s.loans.Of(kind)[n])
    ensures var r := Renew(s, kind, n, q, Rentable(s.pool.value, s.loans.Of(kind)[n]));
            r != Err(Rejected) && r != Err(Endless) && (r.Ok? ==> TurnTaken(s, r.value, kind, n))
  {
    hide LimitsOf, Limit, RemoveLoan, RentLeft, Rentable, NoneOpen;
    var p, loan := s.pool.value, s.loans.Of(kind)[n];
    PricedAt(p, loan);
    var rented := Rentable(p, loan);
    var renewed := loan.(staked := rented, expiration := loan.expiration + LOAN_TERM, balance := loan.balance - loan.payment);
    var t := s.(pool := Some(AddLoan(q, loan.payment, rented, false)),
                loans := s.loans.With(kind, s.loans.Of(kind)[n := renewed]));
    LimitsFigures(Record(t, loan.from, ForRenewal, loan.payment), kind, loan.receiver, rented - loan.staked);
  }

  lemma CloseTurn(s: State, kind: Kind, n: nat, q: Pool)
    requires s.pool.Some? && n in s.loans.Of(kind) && Lends(s.pool.value, s.loans.Of(kind)[n])
    requires RemoveLoan(s.pool.value, s.loans.Of(kind)[n].staked) == Ok(q) && 0 <= s.loans.Of(kind)[n].balance
    requires !Renews(s.pool.value, s.orders, s.loans.Of(kind)[n])
    ensures var r := CloseLoan(s, kind, n, q);
            r != Err(Rejected) && r != Err(Endless) && (r.Ok? ==> TurnTaken(s, r.value, kind, n))
  {
    hide LimitsOf, Limit, RemoveLoan, RentLeft, Rentable, NoneOpen, Credited, Credit;
    var p, loan := s.pool.value, s.loans.Of(kind)[n];
    PricedAt(p, loan);
    var t := s.(pool := Some(q), loans := s.loans.With(kind, s.loans.Of(kind) - {n}));
    CreditFigures(t, loan.from, loan.balance);
    LimitsFigures(Credit(t, loan.from, loan.balance, []).value, kind, loan.receiver, -loan.staked);
  }

  lemma CreditFigures(s: State, owner: Name, amount: nat)
    ensures var r := Credit(s, owner, amount, []);
            && r.Ok? && r.value == s.(funds := r.value.funds, log := s.log.(credits := r.value.log.credits))
            && forall x :: At(r.value.funds, x) == At(s.funds, x) + (if x == owner then amount else 0)
  {
    hide Credit, Credited;
    CreditFrame(s, owner, amount, []);
    CreditIs(s, owner, amount, []);
    CreditedFunds(s, owner, amount);
  }

  lemma CreditedFunds(s: State, owner: Name, amount: nat)
    ensures forall x :: At(CreditTo(s, owner, amount, []).funds, x) == At(s.funds, x) + (if x == owner then amount else 0)
  {
    hide Credited;
  }

  /** An expired loan's turn, renewed or closed, never fails. */
  lemma LoanTurn(s: State, c: Context, kind: Kind, n: nat)
    requires Sound(s, c) && n in s.loans.Of(kind)
    ensures s.pool.Some? && Lends(s.pool.value, s.loans.Of(kind)[n])
    ensures var r := ProcessLoan(s, kind, n);
            r.Ok? && Sound(r.value, c) && TurnTaken(s, r.value, kind, n)
  {
    hide Sound, RemoveLoan, BancorOutput, FrontOpen, RentLeft, Rentable, Renew, CloseLoan, TurnTaken, NoneOpen;
    SoundLends(s, c, kind, n);
    ProcessLoanKeeps(s, c, kind, n);
    var p, loan := s.pool.value, s.loans.Of(kind)[n];
    PricedAt(p, loan);
    var q := RemoveLoan(p, loan.staked).value;
    if Renews(p, s.orders, loan) {
      RenewTurn(s, kind, n, q);
    } else {
      CloseTurn(s, kind, n, q);
    }
    NeitherError(ProcessLoan(s, kind, n));
  }

  lemma NeitherError<T>(r: Result<T>)
    requires r != Err(Broken) && r != Err(Endless) && r != Err(Rejected)
    ensures r.Ok?
  {
    if r.Err? {
      match r.error
      case Broken =>
      case _ =>
    }
  }

  // ---------------------------------------------------------------------------------------------
  // Turns.

  /** The loan at the front of the index by expiration, if it has expired. */
  predicate FirstExpired(table: map<nat, Loan>, now: int, n: nat) {
    && n in table && table[n].expiration <= now
    && forall m :: m in table && m != n ==>
         table[n].expiration < table[m].expiration || (table[n].expiration == table[m].expiration && n < m)
  }

  predicate NoneExpired(table: map<nat, Loan>, now: int) {
    forall n :: n in table ==> now < table[n].expiration
  }

  /** The index is asked for exactly that. */
  lemma ExpiredIs(table: map<nat, Loan>, now: int)
    ensures match Expired(table, now) case Some(n) => FirstExpired(table, now, n) case None => NoneExpired(table, now)
    ensures forall n: nat :: FirstExpired(table, now, n) ==> Expired(table, now) == Some(n)
    ensures NoneExpired(table, now) <==> Expired(table, now) == None
  {
    if table != map[] {
      var keys := LoanKeys(table);
      assert keys.Keys == table.Keys;
      var f := SortedIndex.First(keys);
      forall m | m in table && m != f
        ensures table[f].expiration < table[m].expiration || (table[f].expiration == table[m].expiration && f < m)
      {
        assert SortedIndex.Before(keys, f, m);
      }
    }
  }

  /** Nothing but loans, the pool, funds and bandwidth changes while expired loans take their turns. */
  ghost predicate OnlyLoans(s: State, t: State, kind: Kind) {
    && t == s.(pool := t.pool, loans := t.loans, funds := t.funds, resources := t.resources, log := t.log)
    && t.loans == s.loans.With(kind, t.loans.Of(kind))
    && (forall x :: Limit(t.resources, Other(kind), x) == Limit(s.resources, Other(kind), x))
  }

  function Other(kind: Kind): Kind {
    if kind == Cpu then Net else Cpu
  }

  function Turns(s: State, t: State, kind: Kind): int {
    |s.loans.Of(kind)| - |t.loans.Of(kind)| + |t.log.deals| - |s.log.deals|
  }

  /**
   Expired loans take turns, each being renewed, for which a payment is recorded, or closed, until none is
   left or as many as allowed have had theirs. It never fails.
   */
  lemma {:induction false} LoansTakeTurns(s: State, c: Context, kind: Kind, max: nat)
    requires Sound(s, c)
    ensures var r := ProcessLoans(s, kind, max);
            && r.Ok? && Sound(r.value, c) && OnlyLoans(s, r.value, kind)
            && 0 <= Turns(s, r.value, kind) <= max
            && (Turns(s, r.value, kind) == max || NoneExpired(r.value.loans.Of(kind), r.value.now))
    decreases max
  {
    hide Sound, ProcessLoan, Expired, FirstExpired, NoneExpired, OnlyLoans;
    ExpiredIs(s.loans.Of(kind), s.now);
    var expired := Expired(s.loans.Of(kind), s.now);
    if max > 0 && expired.Some? {
      LoanTurn(s, c, kind, expired.value);
      var t := ProcessLoan(s, kind, expired.value).value;
      LoansTakeTurns(t, c, kind, max - 1);
      OneTurn(s, t, kind, expired.value);
      TurnsChain(s, t, ProcessLoans(t, kind, max - 1).value, kind);
    } else {
      assert OnlyLoans(s, s, kind) by {
        SameLoans(s, kind);
      }
    }
  }

  lemma SameLoans(s: State, kind: Kind)
    ensures OnlyLoans(s, s, kind)
  {
  }

  lemma OneTurn(s: State, t: State, kind: Kind, n: nat)
    requires s.pool.Some? && n in s.loans.Of(kind) && Lends(s.pool.value, s.loans.Of(kind)[n]) && TurnTaken(s, t, kind, n)
    ensures OnlyLoans(s, t, kind) && Turns(s, t, kind) == 1
  {
    hide Renews, PoolAfter, StakeAfter, Rentable, Limit;
    Sizes(s.loans.Of(kind), n, if n in t.loans.Of(kind) then t.loans.Of(kind)[n] else s.loans.Of(kind)[n]);
  }

  lemma Sizes<V>(m: map<nat, V>, n: nat, v: V)
    requires n in m
    ensures |m[n := v]| == |m| && |m - {n}| == |m| - 1
  {
    assert m[n := v].Keys == m.Keys;
    assert (m - {n}).Keys == m.Keys - {n};
  }

  lemma TurnsChain(s: State, t: State, u: State, kind: Kind)
    requires OnlyLoans(s, t, kind) && OnlyLoans(t, u, kind)
    ensures OnlyLoans(s, u, kind) && Turns(s, u, kind) == Turns(s, t, kind) + Turns(t, u, kind)
  {
    hide Limit;
  }

  // ---------------------------------------------------------------------------------------------
  // A round of maintenance.

  /** Only the pool, balances and orders change while orders are filled. */
  predicate OnlyOrders(s: State, t: State) {
    t == s.(pool := t.pool, balances := t.balances, orders := t.orders, log := t.log)
  }

  lemma FillQueuedFrame(s: State, owner: Name)
    requires owner in s.orders && FillQueued(s, owner).Ok?
    ensures OnlyOrders(s, FillQueued(s, owner).value)
  {
    hide Fill, Worth;
  }

  lemma {:induction false} OrdersAreFilled(s: State, c: Context, queue: seq<Name>, max: nat)
    requires Sound(s, c) && !c.selling && c.filled == []
    ensures var r := FillOrders(s, queue, max); r.Ok? && Sound(r.value, c) && OnlyOrders(s, r.value)
    decreases max
  {
    hide Sound, FillQueued, Fits;
    if max > 0 && queue != [] && Open(s.orders, queue[0]) {
      FilledIff(s, c, queue[0]);
      FillQueuedFrame(s, queue[0]);
      OrdersAreFilled(FillQueued(s, queue[0]).value, c, queue[1..], max - 1);
    }
  }

  /** Whether proceeds of name auctions are there to be moved to the pool. */
  predicate NamebidsPaid(s: State) {
    s.pool.Some? && (s.pool.value.namebid > 0 && s.pool.value.rex > 0 ==> s.pool.value.namebid <= At(s.tokens, NAMES_ACCOUNT))
  }

  /** They go to the pool while it has shares, and out of its books otherwise. */
  lemma NamebidsMove(s: State, c: Context)
    requires Sound(s, c)
    ensures s.pool.Some? ==>
      var r, p := ChannelNamebids(s), s.pool.value;
      var moved := if p.namebid > 0 && p.rex > 0 then p.namebid else 0;
      && (r.Ok? <==> NamebidsPaid(s))
      && (r.Ok? ==>
            && Sound(r.value, c)
            && r.value == s.(pool := Some(p.(unlent := p.unlent + moved, lendable := p.lendable + moved, namebid := 0)),
                             tokens := r.value.tokens)
            && forall a :: At(r.value.tokens, a) == At(s.tokens, a) + (if a == REX_ACCOUNT then moved else 0)
                                                    - (if a == NAMES_ACCOUNT then moved else 0))
  {
    hide Sound;
    ChannelNamebidsKeeps(s, c);
    if s.pool.Some? {
      RentNonNegative(s, c);
    }
  }

  /**
   Maintenance fails exactly if there is no pool, or if the proceeds of name auctions it is to move are not there;
   never for a loan or an order.
   */
  lemma RunRexOkIff(s: State, c: Context, max: nat)
    requires Sound(s, c) && !c.selling && c.filled == []
    ensures RunRex(s, max).Ok? <==> NamebidsPaid(s)
    ensures RunRex(s, max).Ok? ==> Sound(RunRex(s, max).value, c)
    ensures RunRex(s, max).Err? ==> RunRex(s, max) == Err(Rejected)
  {
    hide Sound, ChannelNamebids, ProcessLoans, FillOrders, Queue, OnlyLoans, OnlyOrders, NamebidsPaid, Turns, NoneExpired;
    NamebidsMove(s, c);
    RunRexKeeps(s, c, max);
    NoPoolNoPay(s);
    if s.pool.Some? && NamebidsPaid(s) {
      var r1 := ChannelNamebids(s).value;
      LoansTakeTurns(r1, c, Cpu, max);
      var r2 := ProcessLoans(r1, Cpu, max).value;
      LoansTakeTurns(r2, c, Net, max);
      var r3 := ProcessLoans(r2, Net, max).value;
      OrdersAreFilled(r3, c, Queue(r3.orders), max);
    } else {
      OnlyRejected(RunRex(s, max));
    }
  }

  lemma NoPoolNoPay(s: State)
    ensures s.pool.None? ==> !NamebidsPaid(s)
  {
  }

  lemma OnlyRejected<T>(r: Result<T>)
    requires r != Err(Broken) && r != Err(Endless)
    ensures r.Err? ==> r == Err(Rejected)
  {
    if r.Err? {
      match r.error
      case Rejected =>
      case _ =>
    }
  }

  /** Nothing to move from name auctions. */
  lemma NoNamebids(s: State)
    requires s.pool.Some? && s.pool.value.namebid == 0
    ensures ChannelNamebids(s) == Ok(s)
  {
  }

  lemma TwoTurns(s: State, kind: Kind)
    ensures ProcessLoans(s, kind, 1)
            == match Expired(s.loans.Of(kind), s.now) case Some(n) => ProcessLoan(s, kind, n) case None => Ok(s)
  {
    hide ProcessLoan;
    match Expired(s.loans.Of(kind), s.now)
    case Some(n) =>
      var t := ProcessLoan(s, kind, n);
      assert t.Ok? ==> ProcessLoans(t.value, kind, 0) == t;
    case None =>
  }

  /**
   Maintenance with one turn for each kind of loan, no name auction being closed: the first expired loan is
   renewed exactly if it can pay, if its payment, at the price after its tokens are returned, rents more than it
   is, and if no sell order is open; otherwise it is closed and its fund goes to whoever opened it. A NET loan
   takes its turn after the CPU loans.
   */
  lemma FirstLoan(s: State, kind: Kind, n: nat)
    requires Reached(s) && s.pool.Some? && s.pool.value.namebid == 0 && FirstExpired(s.loans.Of(kind), s.now, n)
    requires kind == Net ==> NoneExpired(s.loans.cpu, s.now)
    ensures Lends(s.pool.value, s.loans.Of(kind)[n])
    ensures var r, p, loan := RunRex(s, 1), s.pool.value, s.loans.Of(kind)[n];
            && r.Ok?
            && (n in r.value.loans.Of(kind) <==> Renews(p, s.orders, loan))
            && r.value.loans.Of(kind) == TableAfter(p, s.orders, s.loans.Of(kind), n)
            && (forall x :: Limit(r.value.resources, kind, x)
                            == Limit(s.resources, kind, x) + (if x == loan.receiver then StakeAfter(p, s.orders, loan) else 0))
            && (NoneExpired(s.loans.Of(Other(kind)), s.now) ==>
                  forall x :: At(r.value.funds, x)
                              == At(s.funds, x) + (if x == loan.from && !Renews(p, s.orders, loan) then loan.balance else 0))
  {
    hide Sound, Run, RunRex, ProcessLoans, ProcessLoan, Renews, Rentable, RentLeft, Limit, Expired, FirstExpired, NoneExpired,
         TurnTaken, OnlyLoans, OnlyOrders;
    ReachedIsSteady(s);
    var c := Idle(s, 0);
    ExpiredIs(s.loans.Of(kind), s.now);
    LoanTurn(s, c, kind, n);
    var t := ProcessLoan(s, kind, n).value;
    OneTurn(s, t, kind, n);
    RoundIs(s, c);
    var u := RunRex(s, 1).value;
    if kind == Cpu {
      TwoTurns(s, Cpu);
      CpuLoanFirst(s, c, t);
    } else {
      ExpiredIs(s.loans.cpu, s.now);
      TwoTurns(s, Cpu);
      TwoTurns(s, Net);
    }
    AfterTurn(s, t, NetTurn(CpuTurn(s)), u, kind, n);
  }

  function CpuTurn(s: State): State {
    var r := ProcessLoans(s, Cpu, 1);
    if r.Ok? then r.value else s
  }

  function NetTurn(s: State): State {
    var r := ProcessLoans(s, Net, 1);
    if r.Ok? then r.value else s
  }

  /** A round is a turn for each kind, and then for the orders. */
  lemma RoundIs(s: State, c: Context)
    requires Sound(s, c) && !c.selling && c.filled == [] && s.pool.Some? && s.pool.value.namebid == 0
    ensures RunRex(s, 1).Ok? && OnlyOrders(NetTurn(CpuTurn(s)), RunRex(s, 1).value)
  {
    hide Sound, ChannelNamebids, ProcessLoans, FillOrders, Queue, OnlyOrders, OnlyLoans, NoneExpired, Turns;
    NoNamebids(s);
    LoansTakeTurns(s, c, Cpu, 1);
    LoansTakeTurns(CpuTurn(s), c, Net, 1);
    var r := NetTurn(CpuTurn(s));
    OrdersAreFilled(r, c, Queue(r.orders), 1);
  }

  lemma CpuLoanFirst(s: State, c: Context, t: State)
    requires Sound(s, c) && CpuTurn(s) == t && Sound(t, c) && OnlyLoans(s, t, Cpu)
    ensures NetTurn(t).loans.cpu == t.loans.cpu
    ensures forall x :: Limit(NetTurn(t).resources, Cpu, x) == Limit(t.resources, Cpu, x)
    ensures NoneExpired(s.loans.net, s.now) ==> NetTurn(t) == t
  {
    hide Sound, ProcessLoans, ProcessLoan, Expired, NoneExpired, FirstExpired, Limit, Turns;
    LoansTakeTurns(t, c, Net, 1);
    OtherTurn(s, t, NetTurn(t), 0);
    TwoTurns(t, Net);
    ExpiredIs(t.loans.net, t.now);
  }

  /** The turn of a NET loan leaves CPU loans and bandwidth as they are. */
  lemma OtherTurn(s: State, t: State, u: State, n: nat)
    requires OnlyLoans(s, t, Cpu) && OnlyLoans(t, u, Net)
    ensures t.loans.net == s.loans.net && u.loans.cpu == t.loans.cpu
    ensures forall x :: Limit(u.resources, Cpu, x) == Limit(t.resources, Cpu, x)
  {
    hide Limit;
    assert Other(Net) == Cpu;
  }

  lemma AfterTurn(s: State, t: State, r: State, u: State, kind: Kind, n: nat)
    requires s.pool.Some? && n in s.loans.Of(kind) && Lends(s.pool.value, s.loans.Of(kind)[n])
    requires TurnTaken(s, t, kind, n) && OnlyOrders(r, u)
    requires r.loans.Of(kind) == t.loans.Of(kind)
    requires forall x :: Limit(r.resources, kind, x) == Limit(t.resources, kind, x)
    ensures var p, loan := s.pool.value, s.loans.Of(kind)[n];
            && (n in u.loans.Of(kind) <==> Renews(p, s.orders, loan))
            && u.loans.Of(kind) == TableAfter(p, s.orders, s.loans.Of(kind), n)
            && (forall x :: Limit(u.resources, kind, x)
                            == Limit(s.resources, kind, x) + (if x == loan.receiver then StakeAfter(p, s.orders, loan) else 0))
            && (r.funds == t.funds ==>
                  forall x :: At(u.funds, x)
                              == At(s.funds, x) + (if x == loan.from && !Renews(p, s.orders, loan) then loan.balance else 0))
  {
    hide Renews, PoolAfter, StakeAfter, Rentable, Limit;
  }

  /**
   A round without loans due or auctions closed: each of the first `max` open orders is filled exactly if it fits
   in its turn.
   */
  lemma OrdersTakeTurns(s: State, max: nat, i: nat)
    requires Reached(s) && s.pool.Some? && s.pool.value.namebid == 0
    requires NoneExpired(s.loans.cpu, s.now) && NoneExpired(s.loans.net, s.now)
    requires i < max && i < |Queue(s.orders)| && Open(s.orders, Queue(s.orders)[i])
    ensures var r, x := RunRex(s, max), Queue(s.orders)[i];
            r.Ok? && x in r.value.orders && (r.value.orders[x].open <==> !FitsInTurn(s, Queue(s.orders), i))
  {
    hide Sound, Run, ChannelNamebids, FillOrders, Queue, FitsInTurn, Expired, NoneExpired;
    ReachedIsSteady(s);
    NoNamebids(s);
    ExpiredIs(s.loans.cpu, s.now);
    ExpiredIs(s.loans.net, s.now);
    assert ProcessLoans(s, Cpu, max) == Ok(s) && ProcessLoans(s, Net, max) == Ok(s);
    PassedOverIff(s, max, i);
  }
}
