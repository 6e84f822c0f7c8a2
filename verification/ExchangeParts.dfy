/** What each part of an action does to the books of the exchange: money, bandwidth and loans. */
module ExchangeParts {
  import opened Basics
  import opened Ledger
  import opened RexPool
  import opened RexBalance
  import opened Exchange
  import opened ExchangeBooks
  import opened Sums

  // ---------------------------------------------------------------------------------------------
  // Money and votes.

  lemma PayKeeps(s: State, c: Context, from: Name, to: Name, quantity: int)
    requires Sound(s, c) && {from, to} !! {REX_ACCOUNT, STAKE_ACCOUNT}
    ensures Keeps(Pay(s, from, to, quantity, Rejected), c)
  {
    hide PoolOk, Later, HoldingsOk, OrdersOk, Covered, FundsOk, DelegationsOk, Agree, Tracked, NoEarlySale, CreditedOnce,
         NoDust, Owed;
  }

  /** Tokens paid into or out of the exchange's account are pending until a table accounts for them. */
  lemma PayRexKeeps(s: State, c: Context, from: Name, to: Name, quantity: int, shortage: Error)
    requires Sound(s, c) && STAKE_ACCOUNT !in {from, to}
    requires shortage == Broken ==> from == REX_ACCOUNT && quantity <= c.money && 0 <= Owed(s.pool, s.funds, s.loans, s.orders)
    requires shortage != Endless
    ensures Keeps(Pay(s, from, to, quantity, shortage),
                  c.(money := c.money + (if to == REX_ACCOUNT then quantity else 0)
                                      - (if from == REX_ACCOUNT then quantity else 0)))
  {
    hide PoolOk, Later, HoldingsOk, OrdersOk, Covered, FundsOk, DelegationsOk, Agree, Tracked, NoEarlySale, CreditedOnce,
         NoDust, Owed;
  }

  lemma ToFundKeeps(s: State, c: Context, owner: Name, amount: int)
    requires Sound(s, c)
    ensures Keeps(ToFund(s, owner, amount), c.(money := c.money - amount))
  {
    hide PoolOk, Later, HoldingsOk, OrdersOk, Covered, DelegationsOk, Agree, StakeBacked, Tracked, NoEarlySale, CreditedOnce,
         NoDust, LoanFunds;
    SumPut(s.funds, AmountOf, owner, At(s.funds, owner) + amount);
  }

  /** The proceeds of filled orders are credited together with the tokens. */
  lemma LogCreditKeeps(s: State, c: Context)
    requires Sound(s, c)
    ensures Sound(LogCredit(s, c.voter, c.filled), c.(filled := []))
  {
    hide PoolOk, Later, Solvent, HoldingsOk, OrdersOk, Covered, FundsOk, DelegationsOk, Agree, StakeBacked, Tracked,
         NoEarlySale, NoDust;
    var credits := LogCredit(s, c.voter, c.filled).log.credits;
    forall a
      ensures CreditedAt(s.orders, s.log.fills, credits, c.voter, [], a)
    {
      assert CreditedAt(s.orders, s.log.fills, s.log.credits, c.voter, c.filled, a);
    }
  }

  lemma CreditKeeps(s: State, c: Context, amount: int)
    requires Sound(s, c) && 0 <= amount
    ensures Keeps(Credit(s, c.voter, amount, c.filled), c.(money := c.money - amount, filled := []))
  {
    hide Sound, ToFund, LogCredit;
    LogCreditKeeps(s, c);
    ToFundKeeps(LogCredit(s, c.voter, c.filled), c.(filled := []), c.voter, amount);
  }

  /** A loan fund goes back to whoever opened the loan. */
  lemma ReturnKeeps(s: State, c: Context, owner: Name, amount: int)
    requires Sound(s, c) && 0 <= amount
    ensures Keeps(Credit(s, owner, amount, []), c.(money := c.money - amount))
  {
    hide Sound, ToFund;
    assert LogCredit(s, owner, []) == s;
    ToFundKeeps(s, c, owner, amount);
  }

  lemma RecordKeeps(s: State, c: Context, owner: Name, reason: Reason, amount: int)
    requires Sound(s, c)
    ensures Sound(Record(s, owner, reason, amount), c)
  {
  }

  lemma FromFundKeeps(s: State, c: Context, owner: Name, amount: int)
    requires Sound(s, c)
    ensures Keeps(FromFund(s, owner, amount), c.(money := c.money + amount))
  {
    hide PoolOk, Later, HoldingsOk, OrdersOk, Covered, DelegationsOk, Agree, StakeBacked, Tracked, NoEarlySale, CreditedOnce,
         NoDust, LoanFunds;
    if owner in s.funds {
      SumPut(s.funds, AmountOf, owner, s.funds[owner] - amount);
    }
  }

  /** No debt is negative. */
  lemma OwedNonNegative(s: State, c: Context)
    requires Sound(s, c)
    ensures 0 <= Owed(s.pool, s.funds, s.loans, s.orders)
  {
    hide Later, HoldingsOk, Covered, DelegationsOk, Agree, StakeBacked, Tracked, NoEarlySale, CreditedOnce, NoDust, Solvent,
         Sum, Lent;
    SumBounds(s.funds, AmountOf);
    SumBounds(s.loans.cpu, LoanFundOf);
    SumBounds(s.loans.net, LoanFundOf);
    SumBounds(s.orders, ProceedsOf);
  }

  /** Changing a voter's stake takes as much off what is pending for it. */
  lemma StakedPutKeeps(s: State, c: Context, delta: int)
    requires Sound(s, c)
    ensures Sound(s.(staked := s.staked[c.voter := At(s.staked, c.voter) + delta]), c.(stake := c.stake - delta))
  {
    hide PoolOk, Later, Solvent, HoldingsOk, OrdersOk, Covered, FundsOk, DelegationsOk, Agree, StakeBacked, NoEarlySale,
         CreditedOnce, NoDust;
    var staked := s.staked[c.voter := At(s.staked, c.voter) + delta];
    var stake := c.stake - delta;
    forall a
      ensures TrackedAt(staked, s.delegated, s.balances, s.orders, s.log.drift, c.voter, stake, a)
    {
      assert TrackedAt(s.staked, s.delegated, s.balances, s.orders, s.log.drift, c.voter, c.stake, a);
    }
  }

  lemma ChangeVotesKeeps(s: State, c: Context, delta: int)
    requires Sound(s, c)
    ensures Keeps(ChangeVotes(s, c.voter, delta), c.(stake := c.stake - delta))
  {
    hide Sound;
    StakedPutKeeps(s, c, delta);
  }

  lemma AddDriftKeeps(s: State, c: Context, amount: int)
    requires Sound(s, c)
    ensures Sound(AddDrift(s, c.voter, amount), c.(stake := c.stake + amount))
  {
    hide PoolOk, Later, Solvent, HoldingsOk, OrdersOk, Covered, FundsOk, DelegationsOk, Agree, StakeBacked, NoEarlySale,
         CreditedOnce, NoDust;
    var t := AddDrift(s, c.voter, amount);
    var stake := c.stake + amount;
    forall a
      ensures TrackedAt(s.staked, s.delegated, s.balances, s.orders, t.log.drift, c.voter, stake, a)
    {
      assert TrackedAt(s.staked, s.delegated, s.balances, s.orders, s.log.drift, c.voter, c.stake, a);
    }
  }

  // ---------------------------------------------------------------------------------------------
  // Bandwidth: totals follow their sources.

  function Change(kind: Kind, net: int, cpu: int): int {
    if kind == Net then net else cpu
  }

  ghost predicate ShiftedAt(
    d: Delegations, l: Loans, e: Delegations, m: Loans, r: Name, net: int, cpu: int, kind: Kind, x: Name)
  {
    Sources(e, m, kind, x) == Sources(d, l, kind, x) + (if x == r then Change(kind, net, cpu) else 0)
  }

  /** The sources of one account's bandwidth change by given amounts. */
  ghost predicate Shifted(d: Delegations, l: Loans, e: Delegations, m: Loans, r: Name, net: int, cpu: int) {
    forall kind, x :: ShiftedAt(d, l, e, m, r, net, cpu, kind, x)
  }

  predicate StakesOk(table: map<nat, Loan>) {
    forall n :: n in table ==> 0 <= table[n].staked
  }

  lemma SourcesNonNegative(d: Delegations, l: Loans, kind: Kind, x: Name)
    requires DelegationsOk(d) && StakesOk(l.cpu) && StakesOk(l.net)
    ensures 0 <= Sources(d, l, kind, x)
  {
    SumBounds(d, To(kind, x));
    SumBounds(l.Of(kind), StakedTo(x));
  }

  /** Neither check of the resource totals can fail when the sources change alike. */
  lemma LimitsFollow(
    resources: map<Name, Resources>, d: Delegations, l: Loans, e: Delegations, m: Loans, r: Name, net: int, cpu: int)
    requires Agree(resources, d, l) && Shifted(d, l, e, m, r, net, cpu)
    requires DelegationsOk(e) && StakesOk(m.cpu) && StakesOk(m.net)
    ensures var q := Limits(resources, r, net, cpu);
            q.Ok? && Agree(q.value, e, m)
  {
    hide Sources, DelegationsOk, StakesOk;
    SourcesNonNegative(e, m, Net, r);
    SourcesNonNegative(e, m, Cpu, r);
    assert AgreeAt(resources, d, l, Net, r) && AgreeAt(resources, d, l, Cpu, r);
    assert ShiftedAt(d, l, e, m, r, net, cpu, Net, r) && ShiftedAt(d, l, e, m, r, net, cpu, Cpu, r);
    var q := Limits(resources, r, net, cpu);
    forall kind: Kind, x
      ensures AgreeAt(q.value, e, m, kind, x)
    {
      assert AgreeAt(resources, d, l, kind, x) && ShiftedAt(d, l, e, m, r, net, cpu, kind, x);
    }
  }

  lemma WeightsSum(d: Delegations, from: Name, to: Name, w: Weights, f: (Edge, Weights) -> int)
    requires f(Edge(from, to), Weights(0, 0)) == 0
    ensures Sum(PutWeights(d, from, to, w), f) == Sum(d, f) - Part(d, f, Edge(from, to)) + f(Edge(from, to), w)
  {
    if w == Weights(0, 0) {
      SumDrop(d, f, Edge(from, to));
    } else {
      SumPut(d, f, Edge(from, to), w);
    }
  }

  function WeightsOf(d: Delegations, from: Name, to: Name): Weights {
    if Edge(from, to) in d then d[Edge(from, to)] else Weights(0, 0)
  }

  lemma DelegationShifts(d: Delegations, l: Loans, from: Name, to: Name, w: Weights)
    ensures var v := WeightsOf(d, from, to);
            Shifted(d, l, PutWeights(d, from, to, w), l, to, w.net - v.net, w.cpu - v.cpu)
  {
    var v := WeightsOf(d, from, to);
    var e := PutWeights(d, from, to, w);
    var net, cpu := w.net - v.net, w.cpu - v.cpu;
    forall kind: Kind, x
      ensures ShiftedAt(d, l, e, l, to, net, cpu, kind, x)
    {
      hide Sum, PutWeights;
      WeightsSum(d, from, to, w, To(kind, x));
    }
  }

  /** What delegation a row moves, in each of the sums over delegations. */
  lemma DelegationSums(d: Delegations, from: Name, to: Name, w: Weights, a: Name)
    ensures var v := WeightsOf(d, from, to);
            var delta := w.net + w.cpu - v.net - v.cpu;
            && Sum(PutWeights(d, from, to, w), BothOf) == Sum(d, BothOf) + delta
            && Sum(PutWeights(d, from, to, w), From(a)) == Sum(d, From(a)) + (if a == from then delta else 0)
  {
    hide Sum, PutWeights;
    WeightsSum(d, from, to, w, BothOf);
    WeightsSum(d, from, to, w, From(a));
  }

  // ---------------------------------------------------------------------------------------------
  // Loans.

  function StakedIn(table: map<nat, Loan>, n: nat): int {
    if n in table then table[n].staked else 0
  }

  function FundIn(table: map<nat, Loan>, n: nat): int {
    if n in table then table[n].balance else 0
  }

  lemma LoanPut(d: Delegations, l: Loans, kind: Kind, n: nat, loan: Loan)
    requires n in l.Of(kind) ==> l.Of(kind)[n].receiver == loan.receiver
    ensures var m := l.With(kind, l.Of(kind)[n := loan]);
            var delta := loan.staked - StakedIn(l.Of(kind), n);
            && Lent(m) == Lent(l) + delta
            && LoanFunds(m) == LoanFunds(l) + loan.balance - FundIn(l.Of(kind), n)
            && Shifted(d, l, d, m, loan.receiver, if kind == Net then delta else 0, if kind == Net then 0 else delta)
  {
    var m := l.With(kind, l.Of(kind)[n := loan]);
    var delta := loan.staked - StakedIn(l.Of(kind), n);
    SumPut(l.Of(kind), StakedOf, n, loan);
    SumPut(l.Of(kind), LoanFundOf, n, loan);
    var net, cpu := if kind == Net then delta else 0, if kind == Net then 0 else delta;
    forall k: Kind, x
      ensures ShiftedAt(d, l, d, m, loan.receiver, net, cpu, k, x)
    {
      hide Sum;
      SumPut(l.Of(kind), StakedTo(x), n, loan);
    }
  }

  lemma LoanDrop(d: Delegations, l: Loans, kind: Kind, n: nat)
    requires n in l.Of(kind)
    ensures var loan := l.Of(kind)[n];
            var m := l.With(kind, l.Of(kind) - {n});
            && Lent(m) == Lent(l) - loan.staked
            && LoanFunds(m) == LoanFunds(l) - loan.balance
            && Shifted(d, l, d, m, loan.receiver, if kind == Net then -loan.staked else 0, if kind == Net then 0 else -loan.staked)
  {
    var loan := l.Of(kind)[n];
    var m := l.With(kind, l.Of(kind) - {n});
    SumDrop(l.Of(kind), StakedOf, n);
    SumDrop(l.Of(kind), LoanFundOf, n);
    var net, cpu := if kind == Net then -loan.staked else 0, if kind == Net then 0 else -loan.staked;
    forall k: Kind, x
      ensures ShiftedAt(d, l, d, m, loan.receiver, net, cpu, k, x)
    {
      hide Sum;
      SumDrop(l.Of(kind), StakedTo(x), n);
    }
  }

  /** An open loan's stake is part of what is lent. */
  lemma StakedWithinLent(l: Loans, kind: Kind, n: nat, loanNum: nat)
    requires n in l.Of(kind) && LoansOk(l.cpu, loanNum) && LoansOk(l.net, loanNum)
    ensures 0 < l.Of(kind)[n].staked <= Lent(l)
  {
    hide Sum;
    SumBounds(l.cpu, StakedOf);
    SumBounds(l.net, StakedOf);
    assert StakedOf(n, l.Of(kind)[n]) == l.Of(kind)[n].staked;
  }
}
