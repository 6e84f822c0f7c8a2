/** Loans and fees: what opening, renewing, closing and funding a loan does to the books. */
module ExchangeLoans {
  import opened Basics
  import opened Ledger
  import opened RexPool
  import opened Exchange
  import opened ExchangeBooks
  import opened ExchangeParts
  import opened Sums

  /** A loan as it is renewed. */
  function Renewed(loan: Loan, rented: int): Loan {
    loan.(staked := rented, expiration := loan.expiration + LOAN_TERM, balance := loan.balance - loan.payment)
  }

  predicate Priced(p: Pool, loan: Loan, q: Pool, rented: int) {
    && RemoveLoan(p, loan.staked) == Ok(q)
    && BancorOutput(q.rent, q.unlent, loan.payment) == Ok(rented)
  }

  /** A loan can always be taken off the pool and priced anew. */
  lemma AlwaysPriced(p: Pool, l: Loans, kind: Kind, n: nat)
    requires PoolOk(Some(p), l) && n in l.Of(kind)
    ensures p.rex > 0
    ensures var loan := l.Of(kind)[n];
            && RemoveLoan(p, loan.staked).Ok?
            && var q := RemoveLoan(p, loan.staked).value;
            && BancorOutput(q.rent, q.unlent, loan.payment).Ok?
            && Balanced(q) && NoCheaper(p, q) && Product(q) >= Product(p)
            && q.rex == p.rex && q.lendable == p.lendable && q.lent == p.lent - loan.staked
            && q.loanNum == p.loanNum && q.namebid == p.namebid
  {
    var loan := l.Of(kind)[n];
    StakedWithinLent(l, kind, n, p.loanNum);
    RemoveLoanKeeps(p, loan.staked);
    var q := RemoveLoan(p, loan.staked).value;
    hide RemoveLoan;
    BancorKeepsProduct(q.rent, q.unlent, loan.payment);
    assert q.rex == 0 ==> q.lendable == 0 && q.unlent == 0 && q.lent == 0;
    assert p.lent > 0;
  }

  /** Renewal leaves the pool sound, shares no cheaper, and the connectors' product no smaller. */
  lemma RenewPool(p: Pool, l: Loans, kind: Kind, n: nat, q: Pool, rented: int)
    requires PoolOk(Some(p), l) && n in l.Of(kind) && Priced(p, l.Of(kind)[n], q, rented)
    requires l.Of(kind)[n].payment <= l.Of(kind)[n].balance && l.Of(kind)[n].payment < rented
    ensures var loan := l.Of(kind)[n];
            var r := AddLoan(q, loan.payment, rented, false);
            && PoolOk(Some(r), l.With(kind, l.Of(kind)[n := Renewed(loan, rented)]))
            && Balanced(p) && Balanced(r) && NoCheaper(p, r) && Product(r) >= Product(p)
            && r.lendable == p.lendable + loan.payment && r.rex == p.rex
  {
    hide NoCheaper, Product, BancorOutput, Lent;
    var loan := l.Of(kind)[n];
    AlwaysPriced(p, l, kind, n);
    AddLoanKeeps(q, loan.payment, rented, false);
    var r := AddLoan(q, loan.payment, rented, false);
    NoCheaperChain(p, q, r);
    LoanPut(map[], l, kind, n, Renewed(loan, rented));
    hide RemoveLoan;
  }

  lemma RenewKeeps(s: State, c: Context, kind: Kind, n: nat, q: Pool, rented: int)
    requires Sound(s, c) && s.pool.Some? && n in s.loans.Of(kind)
    requires Priced(s.pool.value, s.loans.Of(kind)[n], q, rented)
    requires s.loans.Of(kind)[n].payment <= s.loans.Of(kind)[n].balance && s.loans.Of(kind)[n].payment < rented
    ensures Keeps(Renew(s, kind, n, q, rented), c)
  {
    hide HoldingsOk, OrdersOk, Covered, FundsOk, Agree, StakeBacked, Tracked, NoEarlySale, CreditedOnce, NoDust,
         LoanFunds, Lent, Priced, Shifted, Later, NoCheaper, Balanced, Limits, DelegationsOk;
    var loan := s.loans.Of(kind)[n];
    RenewPool(s.pool.value, s.loans, kind, n, q, rented);
    var r := AddLoan(q, loan.payment, rented, false);
    var m := s.loans.With(kind, s.loans.Of(kind)[n := Renewed(loan, rented)]);
    LaterChain(c.pool, c.epoch, s.pool.value, s.log.epoch, r);
    LoanPut(s.delegated, s.loans, kind, n, Renewed(loan, rented));
    hide PoolOk;
    LimitsHold(s, Some(r), m, kind, loan.receiver, rented - loan.staked);
  }

  /** The step on resource totals that ends each change of a loan. */
  lemma LimitsHold(s: State, pool: Option<Pool>, m: Loans, kind: Kind, r: Name, delta: int)
    requires Agree(s.resources, s.delegated, s.loans) && DelegationsOk(s.delegated) && PoolOk(pool, m)
    requires Shifted(s.delegated, s.loans, s.delegated, m, r, if kind == Net then delta else 0, if kind == Net then 0 else delta)
    ensures var q := Limits(s.resources, r, if kind == Net then delta else 0, if kind == Net then 0 else delta);
            q.Ok? && Agree(q.value, s.delegated, m)
  {
    hide Agree, Shifted, Limits, DelegationsOk, Lent;
    LimitsFollow(s.resources, s.delegated, s.loans, s.delegated, m, r, if kind == Net then delta else 0,
                 if kind == Net then 0 else delta);
  }

  lemma ClosePool(p: Pool, l: Loans, kind: Kind, n: nat, q: Pool)
    requires PoolOk(Some(p), l) && n in l.Of(kind) && RemoveLoan(p, l.Of(kind)[n].staked) == Ok(q)
    ensures PoolOk(Some(q), l.With(kind, l.Of(kind) - {n}))
    ensures Balanced(p) && Balanced(q) && NoCheaper(p, q) && q.lendable == p.lendable && q.rex == p.rex
  {
    hide NoCheaper, Product, BancorOutput, Lent;
    AlwaysPriced(p, l, kind, n);
    LoanDrop(map[], l, kind, n);
    hide RemoveLoan;
  }

  /** With a loan closed, its fund and its stake returned to its receiver's total, its fund is pending. */
  lemma TakeLoanKeeps(s: State, c: Context, kind: Kind, n: nat, q: Pool)
    requires Sound(s, c) && s.pool.Some? && n in s.loans.Of(kind)
    requires RemoveLoan(s.pool.value, s.loans.Of(kind)[n].staked) == Ok(q)
    ensures var loan := s.loans.Of(kind)[n];
            var r := LimitsOf(s.(pool := Some(q), loans := s.loans.With(kind, s.loans.Of(kind) - {n})), kind,
                              loan.receiver, -loan.staked);
            Keeps(r, c.(money := c.money + loan.balance)) && r.Ok? && 0 <= loan.balance
  {
    hide HoldingsOk, OrdersOk, Covered, FundsOk, Agree, StakeBacked, Tracked, NoEarlySale, CreditedOnce, NoDust,
         LoanFunds, Lent, Shifted, Later, NoCheaper, Balanced, Limits, DelegationsOk, RemoveLoan;
    var loan := s.loans.Of(kind)[n];
    assert LoanOk(loan);
    ClosePool(s.pool.value, s.loans, kind, n, q);
    LaterChain(c.pool, c.epoch, s.pool.value, s.log.epoch, q);
    LoanDrop(s.delegated, s.loans, kind, n);
    hide PoolOk;
    LimitsHold(s, Some(q), s.loans.With(kind, s.loans.Of(kind) - {n}), kind, loan.receiver, -loan.staked);
  }

  /** Funds and resource totals may be entered in either order. */
  lemma CreditLater(s: State, owner: Name, amount: int, kind: Kind, receiver: Name, delta: int)
    requires LimitsOf(s, kind, receiver, delta).Ok?
    ensures var r := Credit(s, owner, amount, []);
            var u := Credit(LimitsOf(s, kind, receiver, delta).value, owner, amount, []);
            && (r.Ok? <==> u.Ok?) && (r.Err? ==> u == r)
            && (r.Ok? ==> LimitsOf(r.value, kind, receiver, delta) == u)
  {
    hide Limits;
  }

  lemma CloseLoanKeeps(s: State, c: Context, kind: Kind, n: nat, q: Pool)
    requires Sound(s, c) && s.pool.Some? && n in s.loans.Of(kind)
    requires RemoveLoan(s.pool.value, s.loans.Of(kind)[n].staked) == Ok(q)
    ensures Keeps(CloseLoan(s, kind, n, q), c)
  {
    hide Sound, Limits, RemoveLoan, ToFund;
    TakeLoanKeeps(s, c, kind, n, q);
    var loan := s.loans.Of(kind)[n];
    var u := LimitsOf(s.(pool := Some(q), loans := s.loans.With(kind, s.loans.Of(kind) - {n})), kind,
                      loan.receiver, -loan.staked);
    ReturnKeeps(u.value, c.(money := c.money + loan.balance), loan.from, loan.balance);
    CreditLater(s.(pool := Some(q), loans := s.loans.With(kind, s.loans.Of(kind) - {n})), loan.from, loan.balance, kind,
                loan.receiver, -loan.staked);
  }

  /** An expired loan is renewed or closed without tripping over the books, whatever its terms. */
  lemma ProcessLoanKeeps(s: State, c: Context, kind: Kind, n: nat)
    requires Sound(s, c) && n in s.loans.Of(kind)
    ensures Keeps(ProcessLoan(s, kind, n), c)
  {
    hide Sound, Renew, CloseLoan, LoansAvailable, RemoveLoan, BancorOutput;
    SoundPool(s, c);
    AlwaysPriced(s.pool.value, s.loans, kind, n);
    var loan := s.loans.Of(kind)[n];
    var q := RemoveLoan(s.pool.value, loan.staked).value;
    var rented := BancorOutput(q.rent, q.unlent, loan.payment).value;
    if loan.payment <= loan.balance && loan.payment < rented {
      RenewKeeps(s, c, kind, n, q, rented);
    }
    CloseLoanKeeps(s, c, kind, n, q);
  }

  lemma SoundPool(s: State, c: Context)
    requires Sound(s, c)
    ensures PoolOk(s.pool, s.loans)
  {
  }

  lemma {:induction false} ProcessLoansKeep(s: State, c: Context, kind: Kind, max: nat)
    requires Sound(s, c)
    ensures Keeps(ProcessLoans(s, kind, max), c)
    decreases max
  {
    hide Sound, ProcessLoan, Expired;
    var expired := Expired(s.loans.Of(kind), s.now);
    if max > 0 && expired.Some? {
      ProcessLoanKeeps(s, c, kind, expired.value);
      var t := ProcessLoan(s, kind, expired.value);
      if t.Ok? {
        ProcessLoansKeep(t.value, c, kind, max - 1);
      }
    }
  }

  // ---------------------------------------------------------------------------------------------

  lemma OpenPool(p: Pool, l: Loans, kind: Kind, loan: Loan)
    requires PoolOk(Some(p), l) && p.rex > 0
    requires 0 < loan.payment < loan.staked && 0 <= loan.balance
    requires BancorOutput(p.rent, p.unlent, loan.payment) == Ok(loan.staked)
    ensures var q := AddLoan(p, loan.payment, loan.staked, true);
            && q.loanNum !in l.Of(kind)
            && PoolOk(Some(q), l.With(kind, l.Of(kind)[q.loanNum := loan]))
            && Balanced(p) && Balanced(q) && NoCheaper(p, q) && Product(q) >= Product(p)
            && q.lendable == p.lendable + loan.payment
  {
    hide NoCheaper, Product, BancorOutput, Lent;
    AddLoanKeeps(p, loan.payment, loan.staked, true);
    var q := AddLoan(p, loan.payment, loan.staked, true);
    assert q.loanNum == p.loanNum + 1;
    assert LoansOk(l.Of(kind), p.loanNum);
    LoanPut(map[], l, kind, q.loanNum, loan);
  }

  /** What is paid for a new loan goes to the pool and to the loan's own fund. */
  lemma OpenLoanKeeps(s: State, c: Context, kind: Kind, from: Name, receiver: Name, payment: int, fund: int, rented: int)
    requires Sound(s, c) && RexAvailable(s) && 0 < payment < rented && 0 <= fund
    requires BancorOutput(s.pool.value.rent, s.pool.value.unlent, payment) == Ok(rented)
    ensures Keeps(OpenLoan(s, kind, from, receiver, payment, fund, rented), c.(money := c.money - payment - fund))
  {
    hide HoldingsOk, OrdersOk, Covered, FundsOk, Agree, StakeBacked, Tracked, NoEarlySale, CreditedOnce, NoDust,
         LoanFunds, Lent, Shifted, Later, NoCheaper, Balanced, Limits, DelegationsOk, BancorOutput, PoolOk;
    var p := s.pool.value;
    var loan := Loan(from, receiver, payment, fund, rented, s.now + LOAN_TERM);
    OpenPool(p, s.loans, kind, loan);
    var q := AddLoan(p, payment, rented, true);
    var m := s.loans.With(kind, s.loans.Of(kind)[q.loanNum := loan]);
    LaterChain(c.pool, c.epoch, p, s.log.epoch, q);
    LoanPut(s.delegated, s.loans, kind, q.loanNum, loan);
    LimitsHold(s, Some(q), m, kind, receiver, rented);
  }

  /** Funding a loan takes pending tokens, defunding it makes them pending. */
  lemma AddToLoanKeeps(s: State, c: Context, kind: Kind, n: nat, amount: int)
    requires Sound(s, c) && n in s.loans.Of(kind) && 0 <= s.loans.Of(kind)[n].balance + amount
    ensures Sound(AddToLoan(s, kind, n, amount), c.(money := c.money - amount))
  {
    hide HoldingsOk, OrdersOk, Covered, FundsOk, StakeBacked, Tracked, NoEarlySale, CreditedOnce, NoDust,
         LoanFunds, Lent, Later, Balanced, DelegationsOk, Agree;
    var loan := s.loans.Of(kind)[n];
    assert LoanOk(loan);
    var t := AddToLoan(s, kind, n, amount);
    LoanPut(s.delegated, s.loans, kind, n, loan.(balance := loan.balance + amount));
    SourcesSame(s.resources, s.delegated, s.loans, t.loans, loan.receiver);
  }

  lemma SourcesSame(resources: map<Name, Resources>, d: Delegations, l: Loans, m: Loans, r: Name)
    requires Agree(resources, d, l) && Shifted(d, l, d, m, r, 0, 0)
    ensures Agree(resources, d, m)
  {
    hide Sources;
    forall kind: Kind, x
      ensures AgreeAt(resources, d, m, kind, x)
    {
      assert AgreeAt(resources, d, l, kind, x) && ShiftedAt(d, l, d, m, r, 0, 0, kind, x);
    }
  }

  // ---------------------------------------------------------------------------------------------
  // Fees.

  lemma ChannelPool(p: Pool, l: Loans, amount: int)
    requires PoolOk(Some(p), l) && p.rex > 0 && 0 <= amount
    ensures var q := Channel(p, amount);
            PoolOk(Some(q), l) && Balanced(p) && Balanced(q) && NoCheaper(p, q) && q.lendable == p.lendable + amount
  {
    hide NoCheaper;
    ChannelKeeps(p, amount);
  }

  lemma ChannelToRexKeeps(s: State, c: Context, from: Name, amount: int)
    requires Sound(s, c) && from != REX_ACCOUNT && from != STAKE_ACCOUNT
    ensures Keeps(ChannelToRex(s, from, amount), c)
  {
    hide OrdersOk, Covered, FundsOk, Tracked, NoEarlySale, CreditedOnce, NoDust, LoanFunds, Later, Balanced, DelegationsOk,
         Agree, Sum, NoCheaper, PoolOk;
    if RexAvailable(s) && 0 < amount {
      ChannelPool(s.pool.value, s.loans, amount);
      LaterChain(c.pool, c.epoch, s.pool.value, s.log.epoch, Channel(s.pool.value, amount));
    }
  }

  /** Changing what the pool keeps beside shares, lendable tokens and loans. */
  lemma OtherFieldsKeep(s: State, c: Context, rent: int, namebid: int)
    requires Sound(s, c) && s.pool.Some? && 0 <= rent && 0 <= namebid
    ensures Sound(s.(pool := Some(s.pool.value.(rent := rent, namebid := namebid))), c)
  {
    hide OrdersOk, Covered, FundsOk, Tracked, NoEarlySale, CreditedOnce, NoDust, LoanFunds, DelegationsOk, Agree, Sum, Lent;
  }

  lemma ChannelNamebidsKeeps(s: State, c: Context)
    requires Sound(s, c)
    ensures Keeps(ChannelNamebids(s), c)
  {
    hide Sound, ChannelToRex;
    if s.pool.Some? && s.pool.value.namebid > 0 {
      ChannelToRexKeeps(s, c, NAMES_ACCOUNT, s.pool.value.namebid);
      var t := ChannelToRex(s, NAMES_ACCOUNT, s.pool.value.namebid);
      if t.Ok? && t.value.pool.Some? {
        RentNonNegative(t.value, c);
        OtherFieldsKeep(t.value, c, t.value.pool.value.rent, 0);
      }
    }
  }

  lemma RentNonNegative(s: State, c: Context)
    requires Sound(s, c) && s.pool.Some?
    ensures 0 <= s.pool.value.rent && 0 <= s.pool.value.namebid
  {
  }
}
