/**
 What each action on the exchange comes to, in figures: exactly when it goes through, and what it leaves. Where
 an action begins with maintenance, this is said of the tables after it.
 */
module ExchangeActions {
  import opened Basics
  import opened Ledger
  import opened RexPool
  import opened RexBalance
  import opened Exchange
  import opened ExchangeBooks
  import opened ExchangeParts
  import opened ExchangeLoans
  import opened ExchangeShares
  import opened ExchangeOrders
  import opened ExchangeStaking
  import opened ExchangeRuns
  import opened ExchangeHistory
  import opened ExchangeTheorems
  import opened ExchangeQueue
  import opened ExchangeMaintenance
  import opened Sums

  // ---------------------------------------------------------------------------------------------
  // Amounts that move.

  /** An amount moves from one account to another, and no other balance changes. */
  ghost predicate Moved(before: map<Name, int>, after: map<Name, int>, from: Name, to: Name, amount: int) {
    forall x :: At(after, x) == At(before, x) + (if x == to then amount else 0) - (if x == from then amount else 0)
  }

  /** One account's amount changes, and no other. */
  ghost predicate Grown(before: map<Name, int>, after: map<Name, int>, owner: Name, amount: int) {
    forall x :: At(after, x) == At(before, x) + (if x == owner then amount else 0)
  }

  lemma Pays(s: State, from: Name, to: Name, quantity: int, shortage: Error)
    ensures var r := Pay(s, from, to, quantity, shortage);
            && (r.Ok? <==> from != to && 0 < quantity <= At(s.tokens, from))
            && (r.Ok? ==> r.value == s.(tokens := r.value.tokens) && Moved(s.tokens, r.value.tokens, from, to, quantity))
  {
  }

  lemma TakesFund(s: State, owner: Name, amount: int)
    ensures var r := FromFund(s, owner, amount);
            && (r.Ok? <==> 0 < amount <= At(s.funds, owner))
            && (r.Ok? ==> r.value == s.(funds := r.value.funds) && Grown(s.funds, r.value.funds, owner, -amount))
  {
  }

  lemma GivesFund(s: State, owner: Name, amount: int)
    ensures var r := ToFund(s, owner, amount);
            && (r.Ok? <==> 0 < amount)
            && (r.Ok? ==> r.value == s.(funds := r.value.funds) && Grown(s.funds, r.value.funds, owner, amount))
  {
  }

  // ---------------------------------------------------------------------------------------------
  // Settling an account.

  /** The proceeds of an account's filled order. */
  function FilledFor(orders: map<Name, Order>, owner: Name): int {
    if owner in orders && !orders[owner].open then orders[owner].proceeds else 0
  }

  function WithoutFilled(orders: map<Name, Order>, owner: Name): map<Name, Order> {
    if owner in orders && !orders[owner].open then orders - {owner} else orders
  }

  /** Its filled order is gone, its proceeds and others are in the fund, and its stake change and another in its stake. */
  ghost predicate SettledFor(s: State, t: State, owner: Name, proceeds: int, stake: int) {
    && t == s.(orders := t.orders, funds := t.funds, staked := t.staked, log := t.log)
    && t.orders == WithoutFilled(s.orders, owner)
    && Grown(s.funds, t.funds, owner, proceeds + FilledFor(s.orders, owner))
    && Grown(s.staked, t.staked, owner, stake + HeldBack(s.orders, owner))
  }

  /** Settling is refused exactly if the stake must change and would be negative. */
  predicate MaySettle(s: State, owner: Name, stake: int, force: bool) {
    (force || stake + HeldBack(s.orders, owner) != 0) ==> 0 <= At(s.staked, owner) + stake + HeldBack(s.orders, owner)
  }

  lemma Settles(s: State, owner: Name, proceeds: int, stake: int, force: bool)
    requires 0 <= proceeds + FilledFor(s.orders, owner)
    ensures var r := UpdateAccount(s, owner, proceeds, stake, force);
            && (r.Ok? <==> MaySettle(s, owner, stake, force))
            && (r.Ok? ==> SettledFor(s, r.value, owner, proceeds, stake))
  {
    hide Credit, Credited, ClaimOrder, ChangeVotes, CreditTo, Grown, Amount, FilledFor;
    Claims(s, owner);
    var (t, filled, change) := ClaimOrder(s, owner);
    CreditIs(t, owner, proceeds + Amount(filled), filled);
    CreditedTo(t, owner, proceeds + Amount(filled), filled);
    VotesChange(CreditTo(t, owner, proceeds + Amount(filled), filled), owner, stake + change);
    GrownByNothing(s.staked, owner);
  }

  lemma Claims(s: State, owner: Name)
    ensures var (t, filled, change) := ClaimOrder(s, owner);
            && t == s.(orders := WithoutFilled(s.orders, owner)) && change == HeldBack(s.orders, owner)
            && Amount(filled) == FilledFor(s.orders, owner)
  {
  }

  lemma GrownByNothing(m: map<Name, int>, owner: Name)
    ensures Grown(m, m, owner, 0)
  {
  }

  lemma VotesChange(s: State, owner: Name, delta: int)
    ensures var r := ChangeVotes(s, owner, delta);
            && (r.Ok? <==> 0 <= At(s.staked, owner) + delta)
            && (r.Ok? ==> r.value == s.(staked := r.value.staked) && Grown(s.staked, r.value.staked, owner, delta))
  {
  }

  lemma CreditedTo(s: State, owner: Name, amount: nat, filled: seq<int>)
    ensures var t := CreditTo(s, owner, amount, filled);
            && t == s.(funds := t.funds, log := t.log) && Grown(s.funds, t.funds, owner, amount)
  {
    hide Credited;
  }

  /** On sound books a filled order's proceeds are not negative. */
  lemma FilledNotNegative(s: State, c: Context, owner: Name)
    requires Sound(s, c)
    ensures 0 <= FilledFor(s.orders, owner)
  {
    hide PoolOk, Later, Solvent, HoldingsOk, Covered, FundsOk, DelegationsOk, Agree, StakeBacked, Tracked, NoEarlySale,
         CreditedOnce, NoDust;
  }

  // ---------------------------------------------------------------------------------------------
  // Funds.

  /** A deposit moves an account's own tokens to the exchange, and into its fund. */
  lemma Deposits(s: State, owner: Name, amount: int)
    requires owner != REX_ACCOUNT
    ensures var r := Step(s, Deposit(owner, amount));
            && (r.Ok? <==> 0 < amount <= At(s.tokens, owner))
            && (r.Ok? ==>
                  && r.value == s.(tokens := r.value.tokens, funds := r.value.funds, log := r.value.log)
                  && Moved(s.tokens, r.value.tokens, owner, REX_ACCOUNT, amount)
                  && Grown(s.funds, r.value.funds, owner, amount))
  {
    hide Pay, ToFund, Moved, Grown;
    Pays(s, owner, REX_ACCOUNT, amount, Rejected);
    var r := Pay(s, owner, REX_ACCOUNT, amount, Rejected);
    if r.Ok? {
      GivesFund(Record(r.value, owner, PaidIn, amount), owner, amount);
    }
  }

  /** A withdrawal moves tokens out of an account's fund, a filled order being credited first, to the account itself. */
  lemma Withdraws(s: State, owner: Name, amount: int)
    requires Reached(s) && Outside(Withdraw(owner, amount))
    ensures var r := Step(s, Withdraw(owner, amount));
            && (r.Ok? <==> 0 < amount <= At(s.funds, owner) + FilledFor(s.orders, owner) && MaySettle(s, owner, 0, false))
            && (r.Ok? ==>
                  && r.value == s.(tokens := r.value.tokens, funds := r.value.funds, orders := WithoutFilled(s.orders, owner),
                                   staked := r.value.staked, log := r.value.log)
                  && Moved(s.tokens, r.value.tokens, REX_ACCOUNT, owner, amount)
                  && Grown(s.funds, r.value.funds, owner, FilledFor(s.orders, owner) - amount)
                  && Grown(s.staked, r.value.staked, owner, HeldBack(s.orders, owner)))
  {
    hide Pay, UpdateAccount, FromFund, Sound, Run;
    ReachedIsSteady(s);
    FilledNotNegative(s, Idle(s, 0), owner);
    Settles(s, owner, 0, 0, false);
    NeverBroken(s, Withdraw(owner, amount));
    var r1 := UpdateAccount(s, owner, 0, 0, false);
    if r1.Ok? {
      TakesFund(r1.value, owner, amount);
      var r2 := FromFund(r1.value, owner, amount);
      if r2.Ok? {
        Pays(Record(r2.value, owner, PaidOut, amount), REX_ACCOUNT, owner, amount, Broken);
        PaidIfEnough(Record(r2.value, owner, PaidOut, amount), owner, amount);
      }
    }
  }

  lemma PaidIfEnough(s: State, owner: Name, amount: int)
    requires owner != REX_ACCOUNT && 0 < amount
    ensures Pay(s, REX_ACCOUNT, owner, amount, Broken).Ok? || Pay(s, REX_ACCOUNT, owner, amount, Broken) == Err(Broken)
  {
  }

  // ---------------------------------------------------------------------------------------------
  // Orders and loans.

  /** Cancelling takes an open order off the table, and does nothing else. */
  lemma Cancels(s: State, owner: Name)
    ensures var r := Step(s, ActCancelOrder(owner));
            && (r.Ok? <==> owner in s.orders && s.orders[owner].open)
            && (r.Ok? ==> owner !in r.value.orders && r.value == s.(orders := s.orders - {owner}))
  {
  }

  /** A loan that has not expired, opened by the account. */
  predicate OwnLoan(s: State, kind: Kind, owner: Name, n: nat) {
    n in s.loans.Of(kind) && s.loans.Of(kind)[n].from == owner && s.now < s.loans.Of(kind)[n].expiration
  }

  function WithBalance(l: Loans, kind: Kind, n: nat, amount: int): Loans
    requires n in l.Of(kind)
  {
    l.With(kind, l.Of(kind)[n := l.Of(kind)[n].(balance := l.Of(kind)[n].balance + amount)])
  }

  lemma FundsLoan(s: State, kind: Kind, owner: Name, n: nat, payment: int)
    ensures var r := Step(s, ActFundLoan(kind, owner, n, payment));
            && (r.Ok? <==> 0 < payment <= At(s.funds, owner) && OwnLoan(s, kind, owner, n))
            && (r.Ok? ==>
                  && r.value == s.(funds := r.value.funds, loans := WithBalance(s.loans, kind, n, payment))
                  && Grown(s.funds, r.value.funds, owner, -payment))
  {
    hide FromFund;
    TakesFund(s, owner, payment);
  }

  lemma DefundsLoan(s: State, kind: Kind, owner: Name, n: nat, amount: int)
    ensures var r := Step(s, ActDefundLoan(kind, owner, n, amount));
            && (r.Ok? <==> OwnLoan(s, kind, owner, n) && 0 < amount <= s.loans.Of(kind)[n].balance)
            && (r.Ok? ==>
                  && r.value == s.(funds := r.value.funds, loans := WithBalance(s.loans, kind, n, -amount))
                  && Grown(s.funds, r.value.funds, owner, amount))
  {
    hide ToFund;
    if OwnLoan(s, kind, owner, n) {
      GivesFund(AddToLoan(s, kind, n, -amount), owner, amount);
    }
  }

  /** The books after maintenance. */
  lemma Maintained(s: State, owner: Name)
    requires Reached(s)
    ensures RunRex(s, 2).Ok? <==> NamebidsPaid(s)
    ensures RunRex(s, 2).Ok? ==>
      Sound(RunRex(s, 2).value, Idle(s, owner)) && RunRex(s, 2).value.pool.Some? && RunRex(s, 2).value.now == s.now
  {
    hide Sound, Run, RunRex, NamebidsPaid;
    ReachedIsSteady(s);
    AnyVoter(s, Idle(s, 0), owner);
    RunRexOkIff(s, Idle(s, owner), 2);
    RunRexQuiet(s, 2);
    if RunRex(s, 2).Ok? {
      PoolStays(s, 2);
    }
  }

  lemma PoolStays(s: State, max: nat)
    requires Reached(s) && RunRex(s, max).Ok?
    ensures RunRex(s, max).value.pool.Some?
  {
    hide Sound, Run, RunRex, NoCheaper;
    ReachedIsSteady(s);
    RunRexOkIff(s, Idle(s, 0), max);
    RunRexQuiet(s, max);
    NotWithoutPool(s, max);
    SoundLater(RunRex(s, max).value, Idle(s, 0));
  }

  lemma NotWithoutPool(s: State, max: nat)
    requires RunRex(s, max).Ok?
    ensures s.pool.Some?
  {
    hide ChannelNamebids, ProcessLoans, FillOrders;
  }

  lemma SoundLater(s: State, c: Context)
    requires Sound(s, c)
    ensures Later(c.pool, c.epoch, s.pool, s.log.epoch)
  {
  }

  lemma BancorIs(conin: int, conout: int, incoming: int)
    requires 0 <= conin && 0 <= conout && 0 < incoming
    ensures BancorOutput(conin, conout, incoming) == Ok(incoming * conout / (incoming + conin))
  {
    NotNegative(incoming, conout);
  }

  /** The tables after a new loan on tables `u`. */
  ghost predicate Rented(u: State, t: State, kind: Kind, owner: Name, receiver: Name, payment: int, fund: int)
    requires u.pool.Some? && 0 < payment + u.pool.value.rent
  {
    var p := u.pool.value;
    var rented, n := payment * p.unlent / (payment + p.rent), p.loanNum + 1;
    && n !in u.loans.Of(kind)
    && t.loans == u.loans.With(kind, u.loans.Of(kind)[
         n := Loan(owner, receiver, payment, fund, rented, u.now + 30 * 24 * 3600 * 1_000_000)])
    && t.pool == Some(p.(rent := p.rent + payment, unlent := p.unlent - rented + payment, lent := p.lent + rented,
                         lendable := p.unlent + p.lent + payment, loanNum := n))
    && t == u.(funds := t.funds, loans := t.loans, pool := t.pool, resources := t.resources, log := t.log)
    && Grown(u.funds, t.funds, owner, -(payment + fund))
    && forall k, x :: Limit(t.resources, k, x) == Limit(u.resources, k, x) + (if k == kind && x == receiver then rented else 0)
  }

  /** Whether today's price rents more than is paid, and nobody waits to sell. */
  predicate Rentals(u: State, owner: Name, payment: int, fund: int)
    requires u.pool.Some? && 0 < payment + u.pool.value.rent
  {
    var p := u.pool.value;
    && p.rex > 0 && NoneOpen(u.orders) && 0 <= fund && payment + fund <= At(u.funds, owner)
    && payment < payment * p.unlent / (payment + p.rent)
  }

  /**
   Renting: what is paid goes to the pool, the rest to the loan's own fund, and the receiver has the bandwidth for
   thirty days.
   */
  lemma Rents(s: State, kind: Kind, owner: Name, receiver: Name, payment: int, fund: int)
    requires Reached(s) && Outside(ActRent(kind, owner, receiver, payment, fund))
    ensures var r, m := Step(s, ActRent(kind, owner, receiver, payment, fund)), RunRex(s, 2);
            && (r.Ok? ==> m.Ok? && 0 < payment)
            && (m.Ok? && 0 < payment ==>
                  && m.value.pool.Some? && 0 < payment + m.value.pool.value.rent
                  && (r.Ok? <==> Rentals(m.value, owner, payment, fund))
                  && (r.Ok? ==> Rented(m.value, r.value, kind, owner, receiver, payment, fund)))
  {
    hide Sound, Run, RunRex, LoansAvailable, OpenLoan, FromFund, BancorOutput, Rented, Step;
    Maintained(s, owner);
    NeverBroken(s, ActRent(kind, owner, receiver, payment, fund));
    RentStep(s, kind, owner, receiver, payment, fund);
    if RunRex(s, 2).Ok? && 0 < payment {
      var u := RunRex(s, 2).value;
      RentNonNegative(u, Idle(s, owner));
      UnlentNonNegative(u, Idle(s, owner));
      LoansAvailableIff(u, Idle(s, owner));
      var p := u.pool.value;
      BancorIs(p.rent, p.unlent, payment);
      TakesFund(u, owner, payment + fund);
      var v := FromFund(u, owner, payment + fund);
      if v.Ok? {
        Opens(u, v.value, kind, owner, receiver, payment, fund);
        if Rentals(u, owner, payment, fund) {
          NeitherError(Rent(s, kind, owner, receiver, payment, fund));
        }
      }
    }
  }

  lemma RentStep(s: State, kind: Kind, owner: Name, receiver: Name, payment: int, fund: int)
    ensures Step(s, ActRent(kind, owner, receiver, payment, fund)) == Rent(s, kind, owner, receiver, payment, fund)
  {
    hide Rent;
  }

  lemma Opens(u: State, v: State, kind: Kind, owner: Name, receiver: Name, payment: int, fund: int)
    requires u.pool.Some? && 0 < payment + u.pool.value.rent
    requires v == u.(funds := v.funds) && Grown(u.funds, v.funds, owner, -(payment + fund))
    ensures var rented := payment * u.pool.value.unlent / (payment + u.pool.value.rent);
            var r := OpenLoan(Record(v, owner, ForRent, payment), kind, owner, receiver, payment, fund, rented);
            && r != Err(Rejected) && r != Err(Endless)
            && (r.Ok? ==> Rented(u, r.value, kind, owner, receiver, payment, fund))
  {
    hide LimitsOf, Limit, Grown;
    var rented := payment * u.pool.value.unlent / (payment + u.pool.value.rent);
    var p := AddLoan(u.pool.value, payment, rented, true);
    var loan := Loan(owner, receiver, payment, fund, rented, u.now + LOAN_TERM);
    var t := Record(v, owner, ForRent, payment).(pool := Some(p),
                                                 loans := u.loans.With(kind, u.loans.Of(kind)[p.loanNum := loan]));
    LimitsFigures(t, kind, receiver, rented);
  }

  // ---------------------------------------------------------------------------------------------
  // An account's REX between its buckets, and its value in votes.

  /** Everything but balance rows as settling leaves it. */
  ghost predicate SettledBut(u: State, t: State, rows: map<Name, Balance>, owner: Name, proceeds: int, stake: int) {
    t.balances == rows && SettledFor(u, t.(balances := u.balances), owner, proceeds, stake)
  }

  /** What all REX of an account is worth, rounded down. */
  function FloorWorth(pool: Option<Pool>, rex: int): int {
    if pool.Some? && pool.value.rex > 0 then rex * pool.value.lendable / pool.value.rex else 0
  }

  /** Settling does not look at balance rows. */
  lemma SettlesBeside(u: State, rows: map<Name, Balance>, owner: Name, proceeds: int, stake: int, force: bool)
    requires 0 <= proceeds + FilledFor(u.orders, owner)
    ensures var v := u.(balances := rows);
            var r := UpdateAccount(v, owner, proceeds, stake, force);
            && (r.Ok? <==> MaySettle(u, owner, stake, force))
            && (r.Ok? ==> SettledBut(u, r.value, rows, owner, proceeds, stake))
  {
    hide UpdateAccount, Grown;
    Settles(u.(balances := rows), owner, proceeds, stake, force);
  }

  /** `updaterex`: the vote stake becomes the present worth, and the vote follows. */
  lemma Revalues(s: State, owner: Name)
    requires Reached(s)
    ensures var r, m := Step(s, ActUpdateRex(owner)), RunRex(s, 2);
            && (r.Ok? ==> m.Ok?)
            && (m.Ok? ==>
                  var u := m.value;
                  && (r.Ok? <==>
                        && owner in u.balances
                        && MaySettle(u, owner, FloorWorth(u.pool, u.balances[owner].rex) - u.balances[owner].voteStake, true))
                  && (r.Ok? ==>
                        var b, worth := u.balances[owner], FloorWorth(u.pool, u.balances[owner].rex);
                        && owner in r.value.balances && r.value.balances[owner].voteStake == worth
                        && SettledBut(u, r.value, u.balances[owner := Mature(b.(voteStake := worth), Sec(s.now))], owner, 0,
                                      worth - b.voteStake)))
  {
    hide Sound, Run, RunRex, UpdateAccount, Mature, SettledFor, MaySettle, FilledFor;
    Maintained(s, owner);
    if RunRex(s, 2).Ok? && owner in RunRex(s, 2).value.balances {
      var u := RunRex(s, 2).value;
      FilledNotNegative(u, Idle(s, owner), owner);
      var b, worth := u.balances[owner], FloorWorth(u.pool, u.balances[owner].rex);
      assert SetVoteStake(u, owner, worth) == u.(balances := u.balances[owner := b.(voteStake := worth)]);
      SettlesBeside(u, u.balances[owner := b.(voteStake := worth)], owner, 0, worth - b.voteStake, true);
      MatureStake(b.(voteStake := worth), Sec(s.now));
      Replaced(u.balances, owner, b.(voteStake := worth), Mature(b.(voteStake := worth), Sec(s.now)));
      var v := UpdateAccount(u.(balances := u.balances[owner := b.(voteStake := worth)]), owner, 0, worth - b.voteStake, true);
      if v.Ok? {
        Reset(u, v.value, owner, worth - b.voteStake);
      }
    }
  }

  lemma {:induction false} MatureStake(b: Balance, sec: int)
    ensures Mature(b, sec).voteStake == b.voteStake && Mature(b, sec).rex == b.rex
    decreases |b.buckets|
  {
    if b.buckets != [] && b.buckets[0].maturity <= sec {
      MatureStake(b.(matured := b.matured + b.buckets[0].amount, buckets := b.buckets[1..]), sec);
    }
  }

  lemma Replaced(rows: map<Name, Balance>, owner: Name, b: Balance, d: Balance)
    ensures rows[owner := b][owner := d] == rows[owner := d]
  {
  }

  /** A row may be set once more after settling. */
  lemma Reset(u: State, v: State, owner: Name, stake: int)
    requires SettledFor(u, v.(balances := u.balances), owner, 0, stake)
    ensures forall rows :: SettledFor(u, v.(balances := rows).(balances := u.balances), owner, 0, stake) && v.now == u.now
  {
    hide Grown;
  }

  /** `consolidate`: what is not in an open order becomes one bucket. */
  lemma Consolidates(s: State, owner: Name)
    requires Reached(s)
    ensures var r, m := Step(s, ActConsolidate(owner)), RunRex(s, 2);
            && (r.Ok? ==> m.Ok?)
            && (m.Ok? ==>
                  var u := m.value;
                  && (r.Ok? <==> owner in u.balances && MaySettle(u, owner, 0, false))
                  && (r.Ok? ==>
                        SettledBut(u, r.value, u.balances[owner := Consolidate(u.balances[owner], InOrder(u, owner), Sec(s.now))],
                                   owner, 0, 0)))
  {
    hide Sound, Run, RunRex, UpdateAccount, Consolidate, SettledFor, MaySettle, FilledFor, InOrder;
    Maintained(s, owner);
    if RunRex(s, 2).Ok? && owner in RunRex(s, 2).value.balances {
      var u := RunRex(s, 2).value;
      FilledNotNegative(u, Idle(s, owner), owner);
      assert u.(balances := u.balances) == u;
      SettlesBeside(u, u.balances, owner, 0, 0, false);
      var v := UpdateAccount(u, owner, 0, 0, false);
      if v.Ok? {
        Reset(u, v.value, owner, 0);
      }
    }
  }

  /** `mvtosavings`: of what is neither in an open order nor in savings. */
  lemma Saves(s: State, owner: Name, rex: int)
    requires Reached(s) && Outside(ActMvToSavings(owner, rex))
    ensures var r, m := Step(s, ActMvToSavings(owner, rex)), RunRex(s, 2);
            && (r.Ok? ==> m.Ok?)
            && (m.Ok? ==>
                  var u := m.value;
                  && (r.Ok? <==> && owner in u.balances && 0 < rex && MaySettle(u, owner, 0, false)
                                 && rex + InOrder(u, owner) + Savings(u.balances[owner]) <= u.balances[owner].rex)
                  && (r.Ok? ==>
                        && MoveToSavings(u.balances[owner], rex, InOrder(u, owner), Sec(s.now)).Ok?
                        && SettledBut(u, r.value, u.balances[
                             owner := MoveToSavings(u.balances[owner], rex, InOrder(u, owner), Sec(s.now)).value], owner, 0, 0)))
  {
    hide Sound, Run, RunRex, UpdateAccount, MoveToSavings, SettledFor, MaySettle, FilledFor, InOrder, Partitioned, Savings,
         Maturity;
    Maintained(s, owner);
    if RunRex(s, 2).Ok? && owner in RunRex(s, 2).value.balances && 0 < rex {
      var u := RunRex(s, 2).value;
      FilledNotNegative(u, Idle(s, owner), owner);
      assert u.(balances := u.balances) == u;
      SettlesBeside(u, u.balances, owner, 0, 0, false);
      RowSound(u, Idle(s, owner), owner);
      DatedNow(u, Idle(s, owner));
      MoveToSavingsKeeps(u.balances[owner], rex, InOrder(u, owner), Sec(s.now), Sec(s.now));
      var v := UpdateAccount(u, owner, 0, 0, false);
      if v.Ok? {
        Reset(u, v.value, owner, 0);
      }
    }
  }

  /** `mvfrsavings`: of what savings hold. */
  lemma Unsaves(s: State, owner: Name, rex: int)
    requires Reached(s) && Outside(ActMvFromSavings(owner, rex))
    ensures var r, m := Step(s, ActMvFromSavings(owner, rex)), RunRex(s, 2);
            && (r.Ok? ==> m.Ok?)
            && (m.Ok? ==>
                  var u := m.value;
                  && (r.Ok? <==> && owner in u.balances && 0 < rex && MaySettle(u, owner, 0, false)
                                 && rex <= Savings(u.balances[owner]))
                  && (r.Ok? ==>
                        && MoveFromSavings(u.balances[owner], rex, Sec(s.now)).Ok?
                        && SettledBut(u, r.value, u.balances[
                             owner := MoveFromSavings(u.balances[owner], rex, Sec(s.now)).value], owner, 0, 0)))
  {
    hide Sound, Run, RunRex, UpdateAccount, MoveFromSavings, SettledFor, MaySettle, FilledFor, Partitioned, Savings, Maturity;
    Maintained(s, owner);
    if RunRex(s, 2).Ok? && owner in RunRex(s, 2).value.balances && 0 < rex {
      var u := RunRex(s, 2).value;
      FilledNotNegative(u, Idle(s, owner), owner);
      RowSound(u, Idle(s, owner), owner);
      DatedNow(u, Idle(s, owner));
      MoveFromSavingsKeeps(u.balances[owner], rex, Sec(s.now), Sec(s.now));
      var b := MoveFromSavings(u.balances[owner], rex, Sec(s.now));
      if b.Ok? {
        SettlesBeside(u, u.balances[owner := b.value], owner, 0, 0, false);
      }
    }
  }

  // ---------------------------------------------------------------------------------------------
  // Selling.

  /** Whether a sale of matured REX goes through at once, on tables `u` and the seller's matured row `b`. */
  predicate SellsNow(u: State, owner: Name, b: Balance, rex: int)
    requires u.pool.Some? && u.pool.value.rex != 0
  {
    var proceeds := Worth(u.pool.value, rex);
    && proceeds != 0 && MaySettle(u, owner, FloorWorth(u.pool, b.rex) - proceeds - b.voteStake, false)
    && InOrder(u, owner) <= b.matured - rex
  }

  /** Whether one that does not fit may wait: not for b1, and matured REX must cover all the account has in the queue. */
  predicate SellsLater(u: State, owner: Name, b: Balance, rex: int) {
    owner != B1 && MaySettle(u, owner, 0, false) && InOrder(u, owner) + rex <= b.matured
  }

  ghost predicate SoldNow(u: State, t: State, owner: Name, b: Balance, rex: int)
    requires u.pool.Some? && u.pool.value.rex != 0
  {
    var proceeds := Worth(u.pool.value, rex);
    var stake := FloorWorth(u.pool, b.rex) - proceeds;
    && t.pool == Some(Paid(u.pool.value, rex))
    && t.balances == u.balances[owner := b.(voteStake := stake, rex := b.rex - rex, matured := b.matured - rex)]
    && SettledFor(u, t.(pool := u.pool, balances := u.balances), owner, proceeds, stake - b.voteStake)
  }

  ghost predicate SoldLater(u: State, t: State, owner: Name, b: Balance, rex: int) {
    && t.balances == u.balances[owner := b] && owner in t.orders
    && t.orders[owner].open && t.orders[owner].requested == InOrder(u, owner) + rex
    && t.orders[owner].time == (if owner in u.orders && u.orders[owner].open then u.orders[owner].time else u.now)
    && (forall x :: x != owner ==> (x in t.orders <==> x in u.orders) && (x in u.orders ==> t.orders[x] == u.orders[x]))
    && SettledFor(u, t.(balances := u.balances, orders := WithoutFilled(u.orders, owner)), owner, 0, 0)
  }

  /**
   `sellrex`: of matured REX only, at its floor worth if the pool can pay, else on top of what the account has in
   the queue, which keeps its place.
   */
  lemma Sells(s: State, owner: Name, rex: int)
    requires Reached(s) && Outside(ActSellRex(owner, rex))
    ensures var r, m := Step(s, ActSellRex(owner, rex)), RunRex(s, 2);
            && (r.Ok? ==> m.Ok?)
            && (m.Ok? ==>
                  var u := m.value;
                  && (r.Ok? ==> owner in u.balances && 0 < rex)
                  && (owner in u.balances ==>
                        var b := Mature(u.balances[owner], Sec(s.now));
                        && (0 < rex <= b.matured ==> u.pool.Some? && u.pool.value.rex != 0)
                        && (r.Ok? <==> 0 < rex <= b.matured
                                       && if Fits(u.pool, rex) then SellsNow(u, owner, b, rex) else SellsLater(u, owner, b, rex))
                        && (r.Ok? ==> if Fits(u.pool, rex) then SoldNow(u, r.value, owner, b, rex)
                                      else SoldLater(u, r.value, owner, b, rex))))
  {
    hide Sound, Run, RunRex, Mature, SellMatured, SellsNow, SellsLater, SoldNow, SoldLater, Fits, Maturity;
    Maintained(s, owner);
    if RunRex(s, 2).Ok? && owner in RunRex(s, 2).value.balances {
      var u := RunRex(s, 2).value;
      var c := Idle(s, owner);
      MatureKeepsBooks(u, c);
      var b := Mature(u.balances[owner], Sec(s.now));
      if 0 < rex <= b.matured {
        SellsMatured(u, c, owner, b, rex);
      }
    }
  }

  lemma SellsMatured(u: State, c: Context, owner: Name, b: Balance, rex: int)
    requires owner in u.balances && Sound(SetBalance(u, owner, b), c) && c.voter == owner && !c.selling && c.filled == []
    requires 0 < rex <= b.matured
    ensures u.pool.Some? && u.pool.value.rex != 0
    ensures var r := SellMatured(SetBalance(u, owner, b), owner, rex);
            && (r.Ok? <==> if Fits(u.pool, rex) then SellsNow(u, owner, b, rex) else SellsLater(u, owner, b, rex))
            && (r.Ok? ==> if Fits(u.pool, rex) then SoldNow(u, r.value, owner, b, rex) else SoldLater(u, r.value, owner, b, rex))
  {
    hide Sound, Worth, UpdateAccount, SettledFor, MaySettle, FillOrder, SellsNow, SellsLater, SoldNow, SoldLater;
    var v := SetBalance(u, owner, b);
    RowSound(v, c, owner);
    HeldWithin(b, Sec(u.now));
    FillPool(v, c, owner, rex);
    FilledNotNegative(v, c, owner);
    if Fits(u.pool, rex) {
      SellsFitting(u, owner, b, rex);
    } else {
      SellsWaiting(u, owner, b, rex);
    }
  }

  lemma SellsFitting(u: State, owner: Name, b: Balance, rex: int)
    requires owner in u.balances && u.pool.Some? && 0 < u.pool.value.rex && Fits(u.pool, rex) && 0 <= FilledFor(u.orders, owner)
    requires 0 <= Worth(u.pool.value, rex)
    ensures var r := SellMatured(SetBalance(u, owner, b), owner, rex);
            && (r.Ok? <==> SellsNow(u, owner, b, rex))
            && (r.Ok? ==> SoldNow(u, r.value, owner, b, rex))
  {
    hide Worth, UpdateAccount, Grown, MaySettle, FilledFor, InOrder;
    var p := u.pool.value;
    var proceeds := Worth(p, rex);
    var stake := Worth(p, b.rex) - proceeds;
    WorthFigures(u.pool, b.rex);
    var v := SetBalance(u, owner, b);
    assert FillOrder(v, owner, rex).Ok? && FillOrder(v, owner, rex).value.1 == Some((proceeds, stake - b.voteStake));
    var w := FillOrder(v, owner, rex).value.0;
    assert w == u.(pool := Some(Paid(p, rex)),
                   balances := u.balances[owner := b.(voteStake := stake, rex := b.rex - rex, matured := b.matured - rex)],
                   log := w.log);
    Settles(w, owner, proceeds, stake - b.voteStake, false);
    SameSettling(u, w, owner, stake - b.voteStake);
    var t := UpdateAccount(w, owner, proceeds, stake - b.voteStake, false);
    if t.Ok? {
      Transferred(u, w, t.value, owner, proceeds, stake - b.voteStake);
    }
  }

  lemma Transferred(u: State, w: State, t: State, owner: Name, proceeds: int, stake: int)
    requires w == u.(pool := w.pool, balances := w.balances, log := w.log) && SettledFor(w, t, owner, proceeds, stake)
    ensures SettledFor(u, t.(pool := u.pool, balances := u.balances), owner, proceeds, stake)
    ensures t.pool == w.pool && t.balances == w.balances
    ensures InOrder(t, owner) == InOrder(u, owner)
  {
    hide Grown;
  }

  lemma WorthFigures(pool: Option<Pool>, rex: int)
    requires pool.Some? && 0 < pool.value.rex
    ensures Worth(pool.value, rex) == FloorWorth(pool, rex)
  {
  }

  lemma SameSettling(u: State, w: State, owner: Name, stake: int)
    requires w.orders == u.orders && w.staked == u.staked
    ensures MaySettle(w, owner, stake, false) == MaySettle(u, owner, stake, false)
    ensures InOrder(w, owner) == InOrder(u, owner) && WithoutFilled(w.orders, owner) == WithoutFilled(u.orders, owner)
    ensures FilledFor(w.orders, owner) == FilledFor(u.orders, owner)
  {
  }

  lemma SellsWaiting(u: State, owner: Name, b: Balance, rex: int)
    requires owner in u.balances && u.pool.Some? && 0 < u.pool.value.rex && !Fits(u.pool, rex) && 0 <= FilledFor(u.orders, owner)
    ensures var r := SellMatured(SetBalance(u, owner, b), owner, rex);
            && (r.Ok? <==> SellsLater(u, owner, b, rex))
            && (r.Ok? ==> SoldLater(u, r.value, owner, b, rex))
  {
    hide Worth, UpdateAccount, SettledFor, MaySettle, FilledFor, Enqueue, SoldLater, Fill, InOrder;
    var v := SetBalance(u, owner, b);
    assert FillOrder(v, owner, rex) == Ok((v, None)) by {
      NotFitting(v, owner, rex);
    }
    Settles(v, owner, 0, 0, false);
    SameSettling(u, v, owner, 0);
    var t := UpdateAccount(v, owner, 0, 0, false);
    if t.Ok? {
      Queues(u, v, t.value, owner, b, rex);
    }
  }

  lemma NotFitting(s: State, owner: Name, rex: int)
    requires owner in s.balances && s.pool.Some? && 0 < s.pool.value.rex && !Fits(s.pool, rex)
    ensures FillOrder(s, owner, rex) == Ok((s, None))
  {
    hide Worth;
  }

  lemma Queues(u: State, v: State, t: State, owner: Name, b: Balance, rex: int)
    requires v == u.(balances := u.balances[owner := b]) && SettledFor(v, t, owner, 0, 0)
    ensures SoldLater(u, Enqueue(t, owner, rex), owner, b, rex)
    ensures owner in Enqueue(t, owner, rex).orders
    ensures Enqueue(t, owner, rex).orders[owner].requested == InOrder(u, owner) + rex
    ensures HoldingOf(Enqueue(t, owner, rex).balances, owner) == b
  {
    hide Grown, FilledFor;
    var w := Enqueue(t, owner, rex);
    assert w.(balances := u.balances, orders := WithoutFilled(u.orders, owner)) == t.(balances := u.balances);
  }

  // ---------------------------------------------------------------------------------------------
  // Buying.

  /** Shares issued for a payment: ten thousand a unit into an empty pool, else at the present price, rounded down. */
  function Issued(pool: Option<Pool>, payment: int): int {
    if pool.Some? && pool.value.rex > 0 && pool.value.lendable > 0 then
      (pool.value.lendable + payment) * pool.value.rex / pool.value.lendable - pool.value.rex
    else 10_000 * payment
  }

  /** The pool with the payment: started anew, with 20000 tokens as rent, if it was empty. */
  function PoolWith(pool: Option<Pool>, payment: int): Pool {
    match pool
    case None => Pool(0, payment, 200_000_000, payment, 10_000 * payment, 0, 0)
    case Some(p) =>
      if p.rex <= 0 then Pool(0, payment, 200_000_000, payment, 10_000 * payment, p.namebid, p.loanNum)
      else p.(lendable := p.lendable + payment, rex := p.rex + Issued(pool, payment), unlent := p.unlent + payment)
  }

  /** What a holding counts for in votes after a purchase: the payment if it is the first, else the worth of it all. */
  function StakeWith(s: State, owner: Name, payment: int): int {
    if owner in s.balances then
      FloorWorth(Some(PoolWith(s.pool, payment)), s.balances[owner].rex + Issued(s.pool, payment))
    else payment
  }

  /** The time a purchase matures: midnight five days from today. */
  function MaturesAt(now: int): int {
    (now / 1_000_000 / 86_400 + 5) * 86_400
  }

  lemma MaturesThen(now: int)
    ensures Maturity(Sec(now)) == MaturesAt(now)
  {
  }

  ghost predicate BoughtIn(s: State, w: State, owner: Name, payment: int) {
    var b, received := HoldingOf(s.balances, owner), Issued(s.pool, payment);
    && w.pool == Some(PoolWith(s.pool, payment))
    && w.balances == s.balances[
         owner := AddPurchase(b, received, Sec(s.now)).(rex := b.rex + received, voteStake := StakeWith(s, owner, payment))]
    && w == s.(pool := w.pool, balances := w.balances, log := w.log)
    && w.log.purchases == s.log.purchases + [Purchase(owner, MaturesAt(s.now), received)]
  }

  /** A purchase on sound books always goes through, and its buyer's stake changes with what the holding counts for. */
  lemma BuysIn(s: State, owner: Name, payment: int)
    requires (s.pool.Some? ==> Balanced(s.pool.value)) && 0 < payment
    ensures var r := BuyIn(s, owner, payment);
            && r.Ok? && r.value.1 == StakeWith(s, owner, payment) - HoldingOf(s.balances, owner).voteStake
            && BoughtIn(s, r.value.0, owner, payment)
  {
    hide AddPurchase, Maturity, Buy, PoolWith, Issued;
    MaturesThen(s.now);
    BuyKeeps(s.pool, payment);
    PoolIs(s.pool, payment);
    WorthFigures(Some(PoolWith(s.pool, payment)), HoldingOf(s.balances, owner).rex + Issued(s.pool, payment));
  }

  lemma PoolIs(pool: Option<Pool>, payment: int)
    requires 0 < payment && (pool.Some? ==> Balanced(pool.value)) && Buy(pool, payment).Ok?
    ensures Buy(pool, payment) == Ok((PoolWith(pool, payment), Issued(pool, payment)))
  {
  }

  lemma SteadyBalanced(s: State)
    requires Reached(s)
    ensures s.pool.Some? ==> Balanced(s.pool.value)
  {
    hide Run, Sound;
    ReachedIsSteady(s);
    SoundPool(s, Idle(s, 0));
  }

  /**
   `buyrex`: out of the account's fund, by an account whose ballot meets the voting requirement; then maintenance,
   and then the account is settled with the change of what its holding counts for.
   */
  lemma Buys(s: State, owner: Name, amount: int, voted: bool) returns (w: State)
    requires Reached(s) && Outside(ActBuyRex(owner, amount, voted))
    ensures var r := Step(s, ActBuyRex(owner, amount, voted));
            var ready := 0 < amount <= At(s.funds, owner) && owner in s.staked && voted;
            && (r.Ok? ==> ready)
            && (ready ==>
                  var v := s.(funds := s.funds[owner := At(s.funds, owner) - amount]);
                  var change := StakeWith(s, owner, amount) - HoldingOf(s.balances, owner).voteStake;
                  && w.log.deals == s.log.deals + [Deal(owner, ForShares, amount)] && BoughtIn(v, w, owner, amount)
                  && (RunRex(w, 2).Ok? <==> NamebidsPaid(w))
                  && (r.Ok? <==> RunRex(w, 2).Ok? && MaySettle(RunRex(w, 2).value, owner, change, false))
                  && (r.Ok? ==> SettledFor(RunRex(w, 2).value, r.value, owner, 0, change)))
  {
    hide Run, RunRex, BuyIn, UpdateAccount, SettledFor, MaySettle, Sound, StakeWith, BoughtIn, NamebidsPaid;
    w := s;
    if 0 < amount <= At(s.funds, owner) && owner in s.staked && voted {
      var v := s.(funds := s.funds[owner := At(s.funds, owner) - amount]);
      var logged := Record(v, owner, ForShares, amount);
      assert FromFund(s, owner, amount) == Ok(v);
      SteadyBalanced(s);
      BuysIn(logged, owner, amount);
      w := BuyIn(logged, owner, amount).value.0;
      LoggedAlike(s, v, logged, w, owner, amount);
      DealsKept(logged, owner, amount);
      var d := BuySound(s, v, logged, owner, amount);
      if RunRex(w, 2).Ok? {
        FilledNotNegative(RunRex(w, 2).value, d, owner);
        Settles(RunRex(w, 2).value, owner, 0, StakeWith(s, owner, amount) - HoldingOf(s.balances, owner).voteStake, false);
      }
    }
  }

  lemma LoggedAlike(s: State, v: State, logged: State, w: State, owner: Name, payment: int)
    requires v == s.(funds := v.funds) && logged == v.(log := v.log.(deals := logged.log.deals))
    requires BoughtIn(logged, w, owner, payment)
    ensures BoughtIn(v, w, owner, payment) && StakeWith(logged, owner, payment) == StakeWith(s, owner, payment)
  {
    hide AddPurchase, PoolWith, Issued;
  }

  lemma DealsKept(s: State, owner: Name, payment: int)
    ensures BuyIn(s, owner, payment).Ok? ==> BuyIn(s, owner, payment).value.0.log.deals == s.log.deals
  {
    hide Buy, Worth, AddPurchase, Maturity;
  }

  /** The books in the middle of a purchase. */
  lemma BuySound(s: State, v: State, logged: State, owner: Name, amount: int) returns (pending: Context)
    requires Reached(s) && 0 < amount && owner in s.staked && FromFund(s, owner, amount) == Ok(v)
    requires logged == Record(v, owner, ForShares, amount)
    ensures BuyIn(logged, owner, amount).Ok?
    ensures var w := BuyIn(logged, owner, amount).value.0;
            && (RunRex(w, 2).Ok? <==> NamebidsPaid(w))
            && (RunRex(w, 2).Ok? ==> Sound(RunRex(w, 2).value, pending))
  {
    hide Run, RunRex, BuyIn, Sound, FromFund, NamebidsPaid;
    ReachedIsSteady(s);
    AnyVoter(s, Idle(s, 0), owner);
    var c := Idle(s, owner);
    FromFundKeeps(s, c, owner, amount);
    RecordKeeps(v, c.(money := amount), owner, ForShares, amount);
    TakesFund(s, owner, amount);
    BuyInKeeps(logged, c.(money := amount), amount);
    pending := c.(stake := BuyIn(logged, owner, amount).value.1);
    RunRexOkIff(BuyIn(logged, owner, amount).value.0, pending, 2);
  }

  // ---------------------------------------------------------------------------------------------
  // Closing an account.

  ghost predicate Closed(u: State, t: State, owner: Name) {
    && t.balances == u.balances - {owner}
    && (owner in t.funds ==> t.funds[owner] != 0 || Borrows(u.loans, owner))
    && (owner in u.funds && Borrows(u.loans, owner) ==> owner in t.funds)
    && SettledFor(u, t.(balances := u.balances), owner, 0, 0)
  }

  /**
   `closerex`, with maintenance if there is a pool: an account without REX loses its row, and without loans and
   tokens its fund.
   */
  lemma Closes(s: State, owner: Name)
    requires Reached(s)
    ensures var r, m := Step(s, ActCloseRex(owner)), if s.pool.Some? then RunRex(s, 2) else Ok(s);
            && (m.Ok? <==> s.pool.Some? ==> NamebidsPaid(s)) && (r.Ok? ==> m.Ok?)
            && (m.Ok? ==>
                  && (r.Ok? <==> && MaySettle(m.value, owner, 0, false)
                                 && (owner in m.value.balances ==> m.value.balances[owner].rex == 0))
                  && (r.Ok? ==> Closed(m.value, r.value, owner)))
  {
    hide Sound, Run, RunRex, UpdateAccount, DropFund, SettledFor, MaySettle, FilledFor, NamebidsPaid, Borrows;
    Maintained(s, owner);
    ReachedIsSteady(s);
    AnyVoter(s, Idle(s, 0), owner);
    var m := if s.pool.Some? then RunRex(s, 2) else Ok(s);
    if m.Ok? {
      FilledNotNegative(m.value, Idle(s, owner), owner);
      Settles(m.value, owner, 0, 0, false);
      var v := UpdateAccount(m.value, owner, 0, 0, false);
      if v.Ok? {
        FundsStay(m.value, owner, 0, 0, false);
        DropsFund(m.value, v.value, owner);
      }
    }
  }

  lemma FundsStay(s: State, owner: Name, proceeds: int, stake: int, force: bool)
    ensures var r := UpdateAccount(s, owner, proceeds, stake, force);
            0 <= proceeds + FilledFor(s.orders, owner) && r.Ok? ==> s.funds.Keys <= r.value.funds.Keys
  {
    hide Credit, Credited, ClaimOrder, ChangeVotes, CreditTo, Amount, FilledFor;
    var (t, filled, change) := ClaimOrder(s, owner);
    Claims(s, owner);
    var amount := proceeds + Amount(filled);
    if 0 <= amount {
      CreditIs(t, owner, amount, filled);
      CreditKeepsFunds(t, owner, amount, filled);
      VotesChange(CreditTo(t, owner, amount, filled), owner, stake + change);
    }
  }

  lemma CreditKeepsFunds(s: State, owner: Name, amount: nat, filled: seq<int>)
    ensures s.funds.Keys <= CreditTo(s, owner, amount, filled).funds.Keys
  {
    hide Credited;
  }

  lemma DropsFund(u: State, v: State, owner: Name)
    requires SettledFor(u, v, owner, 0, 0) && u.funds.Keys <= v.funds.Keys
    ensures var r := DropBalance(DropFund(v, owner), owner);
            && (r.Ok? <==> owner in u.balances ==> u.balances[owner].rex == 0)
            && (r.Ok? ==> Closed(u, r.value, owner))
  {
    hide Borrows, Grown, DropFund, AddDrift, FilledFor;
    FundDropped(v, owner);
    GrownAlike(u.funds, v.funds, DropFund(v, owner).funds, owner, FilledFor(u.orders, owner));
    if owner in u.balances {
      DriftOnly(DropFund(v, owner), owner);
    }
  }

  lemma FundDropped(v: State, owner: Name)
    ensures var t := DropFund(v, owner);
            && t == v.(funds := t.funds) && (forall x :: At(t.funds, x) == At(v.funds, x))
            && (owner in t.funds ==> t.funds[owner] != 0 || Borrows(v.loans, owner))
            && (owner in v.funds && Borrows(v.loans, owner) ==> owner in t.funds)
  {
    hide Borrows;
  }

  lemma GrownAlike(before: map<Name, int>, after: map<Name, int>, other: map<Name, int>, owner: Name, amount: int)
    requires Grown(before, after, owner, amount) && forall x :: At(other, x) == At(after, x)
    ensures Grown(before, other, owner, amount)
  {
  }

  lemma DriftOnly(v: State, owner: Name)
    requires owner in v.balances
    ensures var t := AddDrift(v.(balances := v.balances - {owner}), owner, v.balances[owner].voteStake);
            t == v.(balances := v.balances - {owner}, log := t.log)
  {
  }

  // ---------------------------------------------------------------------------------------------
  // What others do to the exchange's tables.

  lemma SetsRent(s: State, rent: int)
    ensures var r := Step(s, ActSetRex(0, rent));
            && (r.Ok? <==> 0 < rent && s.pool.Some?)
            && (r.Ok? ==> r.value.pool == Some(s.pool.value.(rent := rent)) && r.value == s.(pool := r.value.pool))
  {
  }

  /** Fees and name bids reach the pool only while it has shares; fees at once, bids with the next maintenance. */
  lemma Channels(s: State, owner: Name, amount: int, bid: nat)
    requires owner != REX_ACCOUNT
    ensures var r, open := Step(s, ActFee(owner, amount)), s.pool.Some? && s.pool.value.rex > 0;
            && (r.Ok? <==> open ==> 0 < amount <= At(s.tokens, owner))
            && (r.Ok? && !open ==> r.value == s)
            && (r.Ok? && open ==>
                  && r.value.pool == Some(s.pool.value.(unlent := s.pool.value.unlent + amount,
                                                        lendable := s.pool.value.lendable + amount))
                  && r.value == s.(pool := r.value.pool, tokens := r.value.tokens)
                  && Moved(s.tokens, r.value.tokens, owner, REX_ACCOUNT, amount))
            && (!open ==> Step(s, ActNamebid(owner, bid)) == Ok(s))
            && (open ==>
                  Step(s, ActNamebid(owner, bid)) == Ok(s.(pool := Some(s.pool.value.(namebid := s.pool.value.namebid + bid)))))
  {
    hide Pay, Moved;
    if s.pool.Some? {
      Pays(s.(pool := Some(Channel(s.pool.value, amount))), owner, REX_ACCOUNT, amount, Rejected);
    }
  }

  /** A voter row starts without stake, and a row that is there already stays. */
  lemma Registers(s: State, owner: Name)
    ensures var r := Step(s, ActRegister(owner)); r.Ok? && var t := r.value;
            && t == s.(staked := t.staked) && owner in t.staked && Grown(s.staked, t.staked, owner, 0)
            && forall x :: x != owner ==> (x in t.staked <==> x in s.staked)
  {
  }

  /** The clock does not go back. */
  lemma Advances(s: State, now: int)
    ensures var r := Step(s, ActTime(0, now));
            && (r.Ok? <==> s.now <= now && MaturesAt(now) < 4_294_967_295)
            && (r.Ok? ==> r.value == s.(now := now))
  {
    MaturesThen(now);
  }
}
