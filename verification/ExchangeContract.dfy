/** The exchange as the contract runs it: tables changed in place, action by action, refining Exchange. */
module ExchangeContract {
  import opened Basics
  import opened Ledger
  import opened RexPool
  import opened RexBalance
  import opened Exchange
  import Spec = Exchange
  import opened ExchangeBooks
  import opened ExchangeRuns
  import SortedIndex

  // ---------------------------------------------------------------------------------------------
  // Bucket operations do not look at the totals beside the buckets.

  function Retotalled(b: Balance, rex: int, stake: int): Balance {
    b.(rex := rex, voteStake := stake)
  }

  lemma {:induction false} MatureRetotalled(b: Balance, sec: int, rex: int, stake: int)
    ensures Mature(Retotalled(b, rex, stake), sec) == Retotalled(Mature(b, sec), rex, stake)
    decreases |b.buckets|
  {
    if b.buckets != [] && b.buckets[0].maturity <= sec {
      MatureRetotalled(b.(matured := b.matured + b.buckets[0].amount, buckets := b.buckets[1..]), sec, rex, stake);
    }
  }

  lemma PurchaseRetotalled(b: Balance, amount: int, sec: int, rex: int, stake: int)
    ensures AddPurchase(Retotalled(b, rex, stake), amount, sec) == Retotalled(AddPurchase(b, amount, sec), rex, stake)
  {
    hide Mature, Maturity;
    MatureRetotalled(WithoutSavings(b), sec, rex, stake);
  }

  class ExchangeSystem {
    var pool: Option<Pool>
    var funds: map<Name, int>
    var balances: map<Name, Balance>
    var orders: map<Name, Order>
    var loans: Loans
    var delegated: Delegations
    var resources: map<Name, Resources>
    var refunds: map<Name, Refund>
    var staked: map<Name, int>
    var tokens: Tokens
    var now: int
    ghost var log: Log

    ghost function Value(): State
      reads this
    {
      State(pool, funds, balances, orders, loans, delegated, resources, refunds, staked, tokens, now, log)
    }

    /** The outcome and the tables are those of a transition on values. */
    ghost predicate Refines(r: Result<State>, outcome: Outcome)
      reads this
    {
      match r
      case Ok(s) => outcome == Done && Value() == s
      case Err(e) => outcome == Aborted(e)
    }

    constructor (tokens: Tokens, now: int)
      ensures Value() == Genesis(tokens, now)
    {
      pool, funds, balances, orders, loans := None, map[], map[], map[], Loans(map[], map[]);
      delegated, resources, refunds, staked := map[], map[], map[], map[];
      this.tokens, this.now := tokens, now;
      log := Log([], [], map[], map[], [], [], map[], map[], {}, 0);
    }

    // -------------------------------------------------------------------------------------------
    // Tokens, funds, limits, votes.

    method Transfer(from: Name, to: Name, quantity: int, shortage: Error) returns (outcome: Outcome)
      modifies this`tokens
      ensures Refines(Pay(old(Value()), from, to, quantity, shortage), outcome)
    {
      outcome := Done;
      :- Check(from != to && quantity > 0, Rejected);
      :- Check(quantity <= At(tokens, from), shortage);
      tokens := tokens[from := At(tokens, from) - quantity];
      tokens := tokens[to := At(tokens, to) + quantity];
    }

    method TransferToFund(owner: Name, amount: int) returns (outcome: Outcome)
      modifies this`funds
      ensures Refines(ToFund(old(Value()), owner, amount), outcome)
    {
      outcome := Done;
      :- Check(0 < amount, Rejected);
      if owner !in funds {
        funds := funds[owner := amount];
      } else {
        funds := funds[owner := funds[owner] + amount];
      }
    }

    method CreditFund(owner: Name, amount: int, ghost filled: seq<int>) returns (outcome: Outcome)
      modifies this`funds, this`log
      ensures Refines(Credit(old(Value()), owner, amount, filled), outcome)
    {
      outcome := Done;
      log := LogCredit(Value(), owner, filled).log;
      if amount > 0 {
        outcome := TransferToFund(owner, amount);
      }
    }

    method TransferFromFund(owner: Name, amount: int) returns (outcome: Outcome)
      modifies this`funds
      ensures Refines(FromFund(old(Value()), owner, amount), outcome)
    {
      outcome := Done;
      :- Check(0 < amount, Rejected);
      :- Check(owner in funds, Rejected);
      :- Check(amount <= funds[owner], Rejected);
      funds := funds[owner := funds[owner] - amount];
    }

    method UpdateResourceLimits(receiver: Name, net: int, cpu: int) returns (outcome: Outcome)
      modifies this`resources
      ensures Refines(UpdateLimits(old(Value()), receiver, net, cpu), outcome)
    {
      outcome := Done;
      if net == 0 && cpu == 0 {
        return;
      }
      if receiver !in resources {
        :- Check(0 <= net && 0 <= cpu, Broken);
        resources := resources[receiver := Resources(net, cpu, 0)];
      } else {
        var tot := resources[receiver];
        resources := resources[receiver := tot.(net := tot.net + net, cpu := tot.cpu + cpu)];
      }
      :- Check(0 <= resources[receiver].net, Broken);
      :- Check(0 <= resources[receiver].cpu, Broken);
      if resources[receiver] == Resources(0, 0, 0) {
        resources := resources - {receiver};
        assert resources == old(resources) - {receiver};
      }
    }

    method UpdateVotingPower(owner: Name, delta: int) returns (outcome: Outcome)
      modifies this`staked
      ensures Refines(ChangeVotes(old(Value()), owner, delta), outcome)
    {
      outcome := Done;
      if owner !in staked {
        staked := staked[owner := delta];
      } else {
        staked := staked[owner := staked[owner] + delta];
      }
      :- Check(0 <= staked[owner], Rejected);
    }

    // -------------------------------------------------------------------------------------------
    // The buckets of one row.

    method ReadRexSavings(owner: Name) returns (savings: int)
      requires owner in balances
      modifies this`balances
      ensures savings == Savings(old(balances[owner]))
      ensures balances == old(balances)[owner := WithoutSavings(old(balances[owner]))]
    {
      savings := 0;
      var rb := balances[owner];
      if rb.buckets != [] && rb.buckets[|rb.buckets| - 1].maturity == END_OF_DAYS {
        savings := rb.buckets[|rb.buckets| - 1].amount;
        rb := rb.(buckets := rb.buckets[..|rb.buckets| - 1]);
      }
      balances := balances[owner := rb];
    }

    method AddToLastBucket(owner: Name, maturity: int, amount: int)
      requires owner in balances
      modifies this`balances
      ensures balances == old(balances)[owner := PutInto(old(balances[owner]), maturity, amount)]
    {
      var rb := balances[owner];
      var n := |rb.buckets|;
      if n > 0 && rb.buckets[n - 1].maturity == maturity {
        rb := rb.(buckets := rb.buckets[n - 1 := Bucket(maturity, rb.buckets[n - 1].amount + amount)]);
      } else {
        rb := rb.(buckets := rb.buckets + [Bucket(maturity, amount)]);
      }
      balances := balances[owner := rb];
    }

    method PutRexSavings(owner: Name, amount: int)
      requires owner in balances
      modifies this`balances
      ensures balances == old(balances)[owner := PutSavings(old(balances[owner]), amount)]
    {
      if amount != 0 {
        AddToLastBucket(owner, END_OF_DAYS, amount);
      }
    }

    method ProcessRexMaturities(owner: Name)
      requires owner in balances
      modifies this`balances
      ensures balances == old(balances)[owner := Mature(old(balances[owner]), Sec(now))]
    {
      var rb := balances[owner];
      while rb.buckets != [] && rb.buckets[0].maturity <= Sec(now)
        invariant Mature(rb, Sec(now)) == Mature(balances[owner], Sec(now))
        decreases |rb.buckets|
      {
        rb := rb.(matured := rb.matured + rb.buckets[0].amount, buckets := rb.buckets[1..]);
      }
      balances := balances[owner := rb];
    }

    /** Reads savings, matures what is due, puts an amount into today's bucket, and restores savings. */
    method AddToToday(owner: Name, amount: int, toSavings: int)
      requires owner in balances
      modifies this`balances
      ensures var b := old(balances[owner]);
              balances == old(balances)[owner :=
                PutSavings(PutInto(Mature(WithoutSavings(b), Sec(now)), Maturity(Sec(now)), amount), Savings(b) + toSavings)]
    {
      hide Mature, PutInto, Maturity;
      var savings := ReadRexSavings(owner);
      ProcessRexMaturities(owner);
      AddToLastBucket(owner, Maturity(Sec(now)), amount);
      PutRexSavings(owner, savings + toSavings);
    }

    method ConsolidateRexBalance(owner: Name, inOrder: int)
      requires owner in balances
      modifies this`balances
      ensures balances == old(balances)[owner := RexBalance.Consolidate(old(balances[owner]), inOrder, Sec(now))]
    {
      hide PutInto, Maturity;
      var savings := ReadRexSavings(owner);
      var rb := balances[owner];
      var total := rb.matured - inOrder;
      rb := rb.(matured := inOrder);
      while rb.buckets != []
        invariant total + Total(rb.buckets) == balances[owner].matured - inOrder + Total(balances[owner].buckets)
        invariant rb == balances[owner].(matured := inOrder, buckets := rb.buckets)
        decreases |rb.buckets|
      {
        total := total + rb.buckets[0].amount;
        rb := rb.(buckets := rb.buckets[1..]);
      }
      if total > 0 {
        rb := rb.(buckets := [Bucket(Maturity(Sec(now)), total)]);
      }
      balances := balances[owner := rb];
      PutRexSavings(owner, savings);
    }

    method MoveRexToSavings(owner: Name, rex: int, inOrder: int) returns (outcome: Outcome)
      requires owner in balances && rex > 0
      modifies this`balances
      ensures match RexBalance.MoveToSavings(old(balances[owner]), rex, inOrder, Sec(now))
              case Ok(b) => outcome == Done && balances == old(balances)[owner := b]
              case Err(e) => outcome == Aborted(e)
    {
      hide PutInto, Mature;
      outcome := Done;
      var savings := ReadRexSavings(owner);
      :- Check(rex + inOrder + savings <= balances[owner].rex, Rejected);
      ProcessRexMaturities(owner);
      var rb := balances[owner];
      ghost var (left, rest) := TakeBack(rb.buckets, rex);
      var moved := 0;
      while rb.buckets != [] && moved < rex
        invariant TakeBack(rb.buckets, rex - moved) == (left, rest)
        invariant rb == balances[owner].(buckets := rb.buckets)
        decreases |rb.buckets|, rex - moved
      {
        var n := |rb.buckets| - 1;
        var taken := Min(rex - moved, rb.buckets[n].amount);
        rb := rb.(buckets := rb.buckets[n := rb.buckets[n].(amount := rb.buckets[n].amount - taken)]);
        moved := moved + taken;
        if rb.buckets[n].amount == 0 {
          rb := rb.(buckets := rb.buckets[..n]);
        }
      }
      :- Check(moved <= rex, Broken);
      if moved < rex {
        rb := rb.(matured := rb.matured - (rex - moved));
        moved := rex;
        :- Check(inOrder <= rb.matured, Broken);
      }
      balances := balances[owner := rb];
      PutRexSavings(owner, savings + rex);
    }

    // -------------------------------------------------------------------------------------------
    // Orders.

    method FillRexOrder(owner: Name, rex: int) returns (outcome: Outcome, filled: Option<(int, int)>)
      requires owner in balances
      modifies this`pool, this`balances, this`log
      ensures match FillOrder(old(Value()), owner, rex)
              case Ok((s, f)) => outcome == Done && Value() == s && filled == f
              case Err(e) => outcome == Aborted(e)
    {
      outcome, filled := Done, None;
      :- Check(pool.Some?, Broken);
      var p := pool.value;
      :- Check(p.rex != 0, Broken);
      var proceeds := rex * p.lendable / p.rex;
      var bound := 2 * p.lent / 10;
      if proceeds <= p.unlent - bound {
        var rb := balances[owner];
        var stake := rb.rex * p.lendable / p.rex - proceeds;
        var lendable := p.lendable - proceeds;
        pool := Some(p.(rex := p.rex - rex, lendable := lendable, unlent := lendable - p.lent));
        balances := balances[owner := rb.(voteStake := stake, rex := rb.rex - rex, matured := rb.matured - rex)];
        filled := Some((proceeds, stake - rb.voteStake));
        log := log.(sales := log.sales + [Sale(owner, rex)], deals := log.deals + [Deal(owner, FromSale, proceeds)]);
      }
    }

    method UpdateRexAccount(owner: Name, proceeds: int, stake: int, force: bool) returns (outcome: Outcome, inOrder: int)
      modifies this`orders, this`funds, this`staked, this`log
      ensures Refines(UpdateAccount(old(Value()), owner, proceeds, stake, force), outcome)
      ensures inOrder == InOrder(old(Value()), owner)
      ensures outcome == Done ==> inOrder == InOrder(Value(), owner)
    {
      hide Credit;
      outcome, inOrder := Done, 0;
      var toFund, toStake := proceeds, stake;
      ghost var filled := [];
      if owner in orders {
        var order := orders[owner];
        if order.open {
          inOrder := order.requested;
        } else {
          toFund, toStake := toFund + order.proceeds, toStake + order.stakeChange;
          orders := orders - {owner};
          filled := [order.proceeds];
        }
      }
      :- CreditFund(owner, toFund, filled);
      if force || toStake != 0 {
        :- UpdateVotingPower(owner, toStake);
      }
    }

    // -------------------------------------------------------------------------------------------
    // Maintenance.

    method ChannelToRex(from: Name, amount: int) returns (outcome: Outcome)
      modifies this`pool, this`tokens
      ensures Refines(Spec.ChannelToRex(old(Value()), from, amount), outcome)
    {
      outcome := Done;
      if pool.Some? && pool.value.rex > 0 {
        var rp := pool.value;
        pool := Some(rp.(unlent := rp.unlent + amount, lendable := rp.lendable + amount));
        :- Transfer(from, REX_ACCOUNT, amount, Rejected);
      }
    }

    method UpdateLoanLimits(kind: Kind, receiver: Name, delta: int) returns (outcome: Outcome)
      modifies this`resources
      ensures Refines(LimitsOf(old(Value()), kind, receiver, delta), outcome)
    {
      outcome := Done;
      if kind == Net {
        :- UpdateResourceLimits(receiver, delta, 0);
      } else {
        :- UpdateResourceLimits(receiver, 0, delta);
      }
    }

    method RenewLoan(kind: Kind, n: nat, p: Pool, rented: int) returns (outcome: Outcome)
      requires n in loans.Of(kind)
      modifies this`pool, this`loans, this`resources, this`log
      ensures Refines(Renew(old(Value()), kind, n, p, rented), outcome)
    {
      hide LimitsOf, AddLoan;
      outcome := Done;
      var loan := loans.Of(kind)[n];
      pool := Some(AddLoan(p, loan.payment, rented, false));
      loans := loans.With(kind, loans.Of(kind)[n := loan.(staked := rented, expiration := loan.expiration + LOAN_TERM,
                                                          balance := loan.balance - loan.payment)]);
      log := log.(deals := log.deals + [Deal(loan.from, ForRenewal, loan.payment)]);
      :- UpdateLoanLimits(kind, loan.receiver, rented - loan.staked);
    }

    method CloseExpired(kind: Kind, n: nat, p: Pool) returns (outcome: Outcome)
      requires n in loans.Of(kind)
      modifies this`pool, this`funds, this`loans, this`resources, this`log
      ensures Refines(CloseLoan(old(Value()), kind, n, p), outcome)
    {
      hide LimitsOf, Credit;
      outcome := Done;
      var loan := loans.Of(kind)[n];
      pool := Some(p);
      loans := loans.With(kind, loans.Of(kind) - {n});
      :- CreditFund(loan.from, loan.balance, []);
      :- UpdateLoanLimits(kind, loan.receiver, -loan.staked);
    }

    method ProcessExpiredLoan(kind: Kind, n: nat) returns (outcome: Outcome)
      requires n in loans.Of(kind)
      modifies this`pool, this`funds, this`loans, this`resources, this`log
      ensures Refines(ProcessLoan(old(Value()), kind, n), outcome)
    {
      hide FrontOpen, BancorOutput, RemoveLoan, Renew, CloseLoan;
      outcome := Done;
      var loan := loans.Of(kind)[n];
      :- Check(pool.Some?, Broken);
      var removed := RemoveLoan(pool.value, loan.staked);
      if removed.Err? {
        return Aborted(removed.error);
      }
      var p := removed.value;
      var rented := BancorOutput(p.rent, p.unlent, loan.payment);
      if rented.Err? {
        return Aborted(rented.error);
      }
      if loan.payment <= loan.balance && loan.payment < rented.value && p.rex > 0 && !FrontOpen(orders) {
        outcome := RenewLoan(kind, n, p, rented.value);
      } else {
        outcome := CloseExpired(kind, n, p);
      }
    }

    method ProcessExpiredLoans(kind: Kind, max: nat) returns (outcome: Outcome)
      modifies this`pool, this`funds, this`loans, this`resources, this`log
      ensures Refines(ProcessLoans(old(Value()), kind, max), outcome)
    {
      hide ProcessLoan, Expired;
      outcome := Done;
      var i := 0;
      while i < max
        invariant 0 <= i <= max
        invariant ProcessLoans(old(Value()), kind, max) == ProcessLoans(Value(), kind, max - i)
        invariant outcome == Done
      {
        var expired := Expired(loans.Of(kind), now);
        if expired.None? {
          break;
        }
        :- ProcessExpiredLoan(kind, expired.value);
        i := i + 1;
      }
    }

    method ProcessOrders(max: nat) returns (outcome: Outcome)
      modifies this`pool, this`balances, this`orders, this`log
      ensures Refines(FillOrders(old(Value()), Queue(old(orders)), max), outcome)
    {
      hide Queue, FillOrder;
      outcome := Done;
      var idx := Queue(orders);
      var i := 0;
      while i < max && i < |idx|
        invariant 0 <= i <= max && i <= |idx|
        invariant FillOrders(old(Value()), idx, max) == FillOrders(Value(), idx[i..], max - i)
        invariant outcome == Done
      {
        if idx[i] !in orders || !orders[idx[i]].open {
          break;
        }
        :- ProcessOrder(idx[i]);
        i := i + 1;
      }
    }

    method ProcessOrder(owner: Name) returns (outcome: Outcome)
      requires owner in orders
      modifies this`pool, this`balances, this`orders, this`log
      ensures Refines(FillQueued(old(Value()), owner), outcome)
    {
      hide Fill, Worth;
      outcome := Done;
      if owner in balances {
        var order := orders[owner];
        var filled :- FillRexOrder(owner, order.requested);
        if filled.Some? {
          orders := orders[owner := order.(proceeds := filled.value.0, stakeChange := filled.value.1, open := false)];
          log := log.(fills := log.fills[owner := Entries(log.fills, owner) + [filled.value.0]]);
        }
      }
    }

    method RunRex(max: nat) returns (outcome: Outcome)
      modifies this`pool, this`funds, this`balances, this`orders, this`loans, this`resources, this`tokens, this`log
      ensures Refines(Spec.RunRex(old(Value()), max), outcome)
    {
      hide ProcessLoans, FillOrders, Queue, Spec.ChannelToRex;
      outcome := Done;
      :- Check(pool.Some?, Rejected);
      if pool.value.namebid > 0 {
        :- ChannelToRex(NAMES_ACCOUNT, pool.value.namebid);
        pool := if pool.Some? then Some(pool.value.(namebid := 0)) else None;
      }
      :- ProcessExpiredLoans(Cpu, max);
      :- ProcessExpiredLoans(Net, max);
      :- ProcessOrders(max);
    }

    // -------------------------------------------------------------------------------------------
    // Buying.

    method AddToRexPool(payment: int) returns (outcome: Outcome, received: int)
      modifies this`pool, this`log
      ensures match Buy(old(pool), payment)
              case Ok((q, r)) =>
                && outcome == Done && pool == Some(q) && received == r
                && log == old(log).(epoch := if RexAvailable(old(Value())) then old(log).epoch else old(log).epoch + 1)
              case Err(e) => outcome == Aborted(e)
    {
      outcome, received := Done, payment * REX_RATIO;
      if pool.None? {
        pool := Some(Pool(0, payment, INIT_RENT, payment, received, 0, 0));
        log := log.(epoch := log.epoch + 1);
      } else if pool.value.rex <= 0 {
        pool := Some(pool.value.(lendable := payment, lent := 0, unlent := payment, rent := INIT_RENT, rex := received));
        log := log.(epoch := log.epoch + 1);
      } else {
        var p := pool.value;
        :- Check(p.lendable > 0, Broken);
        var lendable := p.lendable + payment;
        var rex := lendable * p.rex / p.lendable;
        received := rex - p.rex;
        :- Check(lendable - p.lent >= 0, Broken);
        pool := Some(p.(lendable := lendable, rex := rex, unlent := lendable - p.lent));
      }
    }

    method AddToRexBalance(owner: Name, payment: int, received: int) returns (outcome: Outcome, change: int)
      requires pool.Some?
      modifies this`balances, this`log
      ensures var b := HoldingOf(old(balances), owner);
              var isNew := owner !in old(balances);
              if isNew || pool.value.rex != 0 then
                var stake := if isNew then payment else Worth(pool.value, b.rex + received);
                && outcome == Done && change == stake - b.voteStake
                && balances == old(balances)[owner :=
                     Retotalled(AddPurchase(b, received, Sec(now)), b.rex + received, stake)]
                && log == old(log).(purchases := old(log).purchases + [Purchase(owner, Maturity(Sec(now)), received)],
                                    dust := if isNew && received == 0 then old(log).dust + {owner} else old(log).dust)
              else outcome == Aborted(Broken)
    {
      hide Mature, PutInto, Maturity;
      outcome, change := Done, 0;
      ghost var b := HoldingOf(balances, owner);
      if owner !in balances {
        balances := balances[owner := Balance(payment, received, 0, [])];
        change := payment;
        log := log.(dust := if received == 0 then log.dust + {owner} else log.dust);
      } else {
        :- Check(pool.value.rex != 0, Broken);
        var rb := balances[owner];
        var rex := rb.rex + received;
        balances := balances[owner := rb.(rex := rex, voteStake := rex * pool.value.lendable / pool.value.rex)];
        change := balances[owner].voteStake - rb.voteStake;
      }
      ghost var row := balances[owner];
      assert row == Retotalled(b, row.rex, row.voteStake);
      PurchaseRetotalled(b, received, Sec(now), row.rex, row.voteStake);
      AddToToday(owner, received, 0);
      log := log.(purchases := log.purchases + [Purchase(owner, Maturity(Sec(now)), received)]);
    }

    method BuyIn(owner: Name, payment: int) returns (outcome: Outcome, change: int)
      modifies this`pool, this`balances, this`log
      ensures match Spec.BuyIn(old(Value()), owner, payment)
              case Ok((s, c)) => outcome == Done && Value() == s && change == c
              case Err(e) => outcome == Aborted(e)
    {
      hide AddPurchase, Worth, Maturity, Buy;
      outcome, change := Done, 0;
      var received :- AddToRexPool(payment);
      change :- AddToRexBalance(owner, payment, received);
    }

    method BuyRex(owner: Name, amount: int, voted: bool) returns (outcome: Outcome)
      modifies this
      ensures Refines(Spec.BuyRex(old(Value()), owner, amount, voted), outcome)
    {
      hide Spec.BuyIn, Spec.RunRex, UpdateAccount;
      outcome := Done;
      :- Check(0 < amount, Rejected);
      :- Check(owner in staked && voted, Rejected);
      :- TransferFromFund(owner, amount);
      log := log.(deals := log.deals + [Deal(owner, ForShares, amount)]);
      var change :- BuyIn(owner, amount);
      :- RunRex(2);
      var _ :- UpdateRexAccount(owner, 0, change, false);
    }

    method TakeDelegated(owner: Name, receiver: Name, net: int, cpu: int) returns (outcome: Outcome)
      modifies this`delegated, this`resources, this`tokens
      ensures Refines(Spec.TakeDelegated(old(Value()), owner, receiver, net, cpu), outcome)
    {
      hide Limits, Ledger.Transfer;
      outcome := Done;
      var k := Edge(owner, receiver);
      :- Check(k in delegated && net <= delegated[k].net && cpu <= delegated[k].cpu, Rejected);
      delegated := delegated[k := Weights(delegated[k].net - net, delegated[k].cpu - cpu)];
      if delegated[k] == Weights(0, 0) {
        delegated := delegated - {k};
        assert delegated == old(delegated) - {k};
      }
      :- UpdateResourceLimits(receiver, -net, -cpu);
      :- Transfer(STAKE_ACCOUNT, REX_ACCOUNT, net + cpu, Broken);
    }

    method UnstakeToRex(owner: Name, receiver: Name, net: int, cpu: int, voted: bool) returns (outcome: Outcome)
      modifies this
      ensures Refines(Spec.UnstakeToRex(old(Value()), owner, receiver, net, cpu, voted), outcome)
    {
      hide Spec.BuyIn, Spec.RunRex, UpdateAccount, Spec.TakeDelegated;
      outcome := Done;
      :- Check(0 <= net && 0 <= cpu && (0 < net || 0 < cpu), Rejected);
      :- Check(owner in staked && voted, Rejected);
      :- TakeDelegated(owner, receiver, net, cpu);
      var change :- BuyIn(owner, net + cpu);
      log := log.(drift := log.drift[owner := At(log.drift, owner) + (net + cpu - change)]);
      :- RunRex(2);
      var _ :- UpdateRexAccount(owner, 0, 0, true);
    }

    // -------------------------------------------------------------------------------------------
    // Selling.

    method SellMatured(owner: Name, rex: int) returns (outcome: Outcome)
      requires owner in balances
      modifies this
      ensures Refines(Spec.SellMatured(old(Value()), owner, rex), outcome)
    {
      hide FillOrder, UpdateAccount;
      outcome := Done;
      var filled :- FillRexOrder(owner, rex);
      if filled.Some? {
        :- Check(filled.value.0 != 0, Rejected);
        var pending :- UpdateRexAccount(owner, filled.value.0, filled.value.1, false);
        :- Check(pending <= HoldingOf(balances, owner).matured, Rejected);
      } else {
        var _ :- UpdateRexAccount(owner, 0, 0, false);
        :- Check(owner != B1, Rejected);
        if owner !in orders {
          orders := orders[owner := Order(rex, 0, 0, now, true)];
        } else {
          orders := orders[owner := orders[owner].(requested := orders[owner].requested + rex)];
        }
        :- Check(orders[owner].requested <= HoldingOf(balances, owner).matured, Rejected);
      }
    }

    method SellRex(owner: Name, rex: int) returns (outcome: Outcome)
      modifies this
      ensures Refines(Spec.SellRex(old(Value()), owner, rex), outcome)
    {
      hide Spec.RunRex, Spec.SellMatured, Mature;
      outcome := Done;
      :- RunRex(2);
      :- Check(owner in balances && rex > 0, Rejected);
      ProcessRexMaturities(owner);
      :- Check(rex <= balances[owner].matured, Rejected);
      outcome := SellMatured(owner, rex);
    }

    method CancelRexOrder(owner: Name) returns (outcome: Outcome)
      modifies this`orders
      ensures Refines(CancelOrder(old(Value()), owner), outcome)
    {
      outcome := Done;
      :- Check(owner in orders, Rejected);
      :- Check(orders[owner].open, Rejected);
      orders := orders - {owner};
    }

    // -------------------------------------------------------------------------------------------
    // Votes, buckets, and closing.

    method UpdateRex(owner: Name) returns (outcome: Outcome)
      modifies this
      ensures Refines(Spec.UpdateRex(old(Value()), owner), outcome)
    {
      hide Spec.RunRex, UpdateAccount, Mature;
      outcome := Done;
      :- RunRex(2);
      :- Check(owner in balances, Rejected);
      var init, stake := balances[owner].voteStake, 0;
      if pool.Some? && pool.value.rex > 0 {
        stake := balances[owner].rex * pool.value.lendable / pool.value.rex;
      }
      balances := balances[owner := balances[owner].(voteStake := stake)];
      var _ :- UpdateRexAccount(owner, 0, stake - init, true);
      ProcessRexMaturities(owner);
    }

    /** `update_rex_stake`. */
    method UpdateRexStake(voter: Name)
      modifies this`balances, this`staked
      ensures Value() == Spec.UpdateRexStake(old(Value()), voter)
    {
      if voter in balances && pool.Some? && pool.value.rex > 0 {
        var init := balances[voter].voteStake;
        var current := balances[voter].rex * pool.value.lendable / pool.value.rex;
        balances := balances[voter := balances[voter].(voteStake := current)];
        if current - init != 0 && voter in staked {
          staked := staked[voter := staked[voter] + (current - init)];
        }
      }
    }

    method Consolidate(owner: Name) returns (outcome: Outcome)
      modifies this
      ensures Refines(ConsolidateRex(old(Value()), owner), outcome)
    {
      hide Spec.RunRex, UpdateAccount, RexBalance.Consolidate;
      outcome := Done;
      :- RunRex(2);
      :- Check(owner in balances, Rejected);
      var inOrder :- UpdateRexAccount(owner, 0, 0, false);
      ConsolidateRexBalance(owner, inOrder);
    }

    method MvToSavings(owner: Name, rex: int) returns (outcome: Outcome)
      modifies this
      ensures Refines(Spec.MvToSavings(old(Value()), owner, rex), outcome)
    {
      hide Spec.RunRex, UpdateAccount, RexBalance.MoveToSavings;
      outcome := Done;
      :- RunRex(2);
      :- Check(owner in balances && rex > 0, Rejected);
      var inOrder :- UpdateRexAccount(owner, 0, 0, false);
      outcome := MoveRexToSavings(owner, rex, inOrder);
    }

    method MvFromSavings(owner: Name, rex: int) returns (outcome: Outcome)
      modifies this
      ensures Refines(Spec.MvFromSavings(old(Value()), owner, rex), outcome)
    {
      hide Spec.RunRex, UpdateAccount, PutSavings, PutInto, Mature, Maturity;
      outcome := Done;
      :- RunRex(2);
      :- Check(owner in balances && rex > 0, Rejected);
      :- Check(rex <= Savings(balances[owner]), Rejected);
      AddToToday(owner, rex, -rex);
      var _ :- UpdateRexAccount(owner, 0, 0, false);
    }

    method CloseRex(owner: Name) returns (outcome: Outcome)
      modifies this
      ensures Refines(Spec.CloseRex(old(Value()), owner), outcome)
    {
      hide Spec.RunRex, UpdateAccount, Borrows;
      outcome := Done;
      if pool.Some? {
        :- RunRex(2);
      }
      var _ :- UpdateRexAccount(owner, 0, 0, false);
      if !Borrows(loans, owner) && owner in funds && funds[owner] == 0 {
        funds := funds - {owner};
      }
      if owner in balances {
        :- Check(balances[owner].rex == 0, Rejected);
        log := log.(drift := log.drift[owner := At(log.drift, owner) + balances[owner].voteStake]);
        balances := balances - {owner};
      }
    }

    // -------------------------------------------------------------------------------------------
    // Loans.

    method OpenLoan(kind: Kind, from: Name, receiver: Name, payment: int, fund: int, rented: int) returns (outcome: Outcome)
      requires pool.Some?
      modifies this`pool, this`loans, this`resources
      ensures Refines(Spec.OpenLoan(old(Value()), kind, from, receiver, payment, fund, rented), outcome)
    {
      hide Limits, AddLoan;
      outcome := Done;
      pool := Some(AddLoan(pool.value, payment, rented, true));
      var n := pool.value.loanNum;
      :- Check(n !in loans.Of(kind), Broken);
      loans := loans.With(kind, loans.Of(kind)[n := Loan(from, receiver, payment, fund, rented, now + LOAN_TERM)]);
      :- UpdateLoanLimits(kind, receiver, rented);
    }

    method RentRex(kind: Kind, from: Name, receiver: Name, payment: int, fund: int) returns (outcome: Outcome)
      modifies this
      ensures Refines(Rent(old(Value()), kind, from, receiver, payment, fund), outcome)
    {
      hide Spec.RunRex, FrontOpen, BancorOutput, Spec.OpenLoan;
      outcome := Done;
      :- RunRex(2);
      :- Check(pool.Some? && pool.value.rex > 0 && !FrontOpen(orders), Rejected);
      :- Check(0 < payment && 0 <= fund, Rejected);
      :- TransferFromFund(from, payment + fund);
      var rented := BancorOutput(pool.value.rent, pool.value.unlent, payment);
      if rented.Err? {
        return Aborted(rented.error);
      }
      :- Check(payment < rented.value, Rejected);
      log := log.(deals := log.deals + [Deal(from, ForRent, payment)]);
      :- OpenLoan(kind, from, receiver, payment, fund, rented.value);
    }

    method FundRexLoan(kind: Kind, from: Name, n: nat, payment: int) returns (outcome: Outcome)
      modifies this`funds, this`loans
      ensures Refines(FundLoan(old(Value()), kind, from, n, payment), outcome)
    {
      outcome := Done;
      :- TransferFromFund(from, payment);
      :- Check(n in loans.Of(kind), Rejected);
      var loan := loans.Of(kind)[n];
      :- Check(loan.from == from && loan.expiration > now, Rejected);
      loans := loans.With(kind, loans.Of(kind)[n := loan.(balance := loan.balance + payment)]);
    }

    method DefundRexLoan(kind: Kind, from: Name, n: nat, amount: int) returns (outcome: Outcome)
      modifies this`funds, this`loans
      ensures Refines(DefundLoan(old(Value()), kind, from, n, amount), outcome)
    {
      outcome := Done;
      :- Check(n in loans.Of(kind), Rejected);
      var loan := loans.Of(kind)[n];
      :- Check(loan.from == from && loan.expiration > now, Rejected);
      :- Check(loan.balance >= amount, Rejected);
      loans := loans.With(kind, loans.Of(kind)[n := loan.(balance := loan.balance - amount)]);
      :- TransferToFund(from, amount);
    }

    // -------------------------------------------------------------------------------------------
    // Deposits, and staking.

    method Deposit(owner: Name, amount: int) returns (outcome: Outcome)
      modifies this`tokens, this`funds, this`log
      ensures Refines(DepositTo(old(Value()), owner, amount), outcome)
    {
      hide Ledger.Transfer;
      outcome := Done;
      :- Check(0 < amount, Rejected);
      :- Transfer(owner, REX_ACCOUNT, amount, Rejected);
      log := log.(deals := log.deals + [Deal(owner, PaidIn, amount)]);
      outcome := TransferToFund(owner, amount);
    }

    method Withdraw(owner: Name, amount: int) returns (outcome: Outcome)
      modifies this
      ensures Refines(WithdrawFrom(old(Value()), owner, amount), outcome)
    {
      hide UpdateAccount, Ledger.Transfer;
      outcome := Done;
      :- Check(0 < amount, Rejected);
      var _ :- UpdateRexAccount(owner, 0, 0, false);
      :- TransferFromFund(owner, amount);
      log := log.(deals := log.deals + [Deal(owner, PaidOut, amount)]);
      :- Transfer(REX_ACCOUNT, owner, amount, Broken);
    }

    /** The delegation row of `changebw`. */
    method ChangeDelegation(from: Name, receiver: Name, net: int, cpu: int) returns (outcome: Outcome)
      modifies this`delegated
      ensures Refines(Delegated(old(Value()), from, receiver, net, cpu), outcome)
    {
      outcome := Done;
      var k := Edge(from, receiver);
      if k !in delegated {
        delegated := delegated[k := Weights(net, cpu)];
      } else {
        delegated := delegated[k := Weights(delegated[k].net + net, delegated[k].cpu + cpu)];
      }
      :- Check(0 <= delegated[k].net, Rejected);
      :- Check(0 <= delegated[k].cpu, Rejected);
      if delegated[k] == Weights(0, 0) {
        delegated := delegated - {k};
        assert delegated == old(delegated) - {k};
      }
    }

    /** The refund row of `changebw`: what of each change it does not absorb is left to be paid. */
    method SettleRefund(from: Name, net: int, cpu: int) returns (due: int)
      modifies this`refunds
      ensures (refunds, due) == Settle(old(refunds), from, net, cpu, Sec(now))
    {
      var netBalance, cpuBalance := net, cpu;
      if from in refunds {
        var r := refunds[from];
        if netBalance < 0 || cpuBalance < 0 {
          r := r.(time := Sec(now));
        }
        r := r.(net := r.net - netBalance);
        if r.net < 0 {
          netBalance, r := -r.net, r.(net := 0);
        } else {
          netBalance := 0;
        }
        r := r.(cpu := r.cpu - cpuBalance);
        if r.cpu < 0 {
          cpuBalance, r := -r.cpu, r.(cpu := 0);
        } else {
          cpuBalance := 0;
        }
        if r.net == 0 && r.cpu == 0 {
          refunds := refunds - {from};
        } else {
          refunds := refunds[from := r];
        }
      } else if netBalance < 0 || cpuBalance < 0 {
        var r := Spec.Refund(Sec(now), 0, 0);
        if netBalance < 0 {
          r, netBalance := r.(net := -netBalance), 0;
        }
        if cpuBalance < 0 {
          r, cpuBalance := r.(cpu := -cpuBalance), 0;
        }
        refunds := refunds[from := r];
      }
      due := netBalance + cpuBalance;
    }

    method SettleStake(source: Name, from: Name, receiver: Name, net: int, cpu: int, transfer: bool) returns (outcome: Outcome)
      modifies this`refunds, this`tokens, this`log
      ensures Refines(Spec.SettleStake(old(Value()), source, from, receiver, net, cpu, transfer), outcome)
    {
      hide Settle, Ledger.Transfer;
      outcome := Done;
      var due := net + cpu;
      if (!transfer && from == receiver) || net + cpu < 0 {
        due := SettleRefund(from, net, cpu);
      }
      log := LogUnstaking(Value(), from, -(net + cpu)).log;
      if 0 < due {
        :- Transfer(source, STAKE_ACCOUNT, due, Rejected);
      }
    }

    method ChangeBw(source: Name, receiver: Name, net: int, cpu: int, transfer: bool) returns (outcome: Outcome)
      modifies this
      ensures Refines(Spec.ChangeBw(old(Value()), source, receiver, net, cpu, transfer), outcome)
    {
      hide UpdateLimits, Spec.SettleStake, Delegated, Spec.UpdateRexStake, ChangeVotes, Abs;
      outcome := Done;
      :- Check(net != 0 || cpu != 0, Rejected);
      :- Check(Abs(net + cpu) >= Abs(net) && Abs(net + cpu) >= Abs(cpu), Rejected);
      var from := if transfer then receiver else source;
      :- ChangeDelegation(from, receiver, net, cpu);
      :- UpdateResourceLimits(receiver, net, cpu);
      if source != STAKE_ACCOUNT {
        :- SettleStake(source, from, receiver, net, cpu, transfer);
      }
      UpdateRexStake(from);
      :- UpdateVotingPower(from, net + cpu);
    }

    method DelegateBw(from: Name, receiver: Name, net: int, cpu: int, transfer: bool) returns (outcome: Outcome)
      modifies this
      ensures Refines(Spec.DelegateBw(old(Value()), from, receiver, net, cpu, transfer), outcome)
    {
      hide Spec.ChangeBw;
      outcome := Done;
      :- Check(0 <= net && 0 <= cpu && 0 < net + cpu, Rejected);
      :- Check(!transfer || from != receiver, Rejected);
      :- ChangeBw(from, receiver, net, cpu, transfer);
    }

    method UndelegateBw(from: Name, receiver: Name, net: int, cpu: int, activated: bool) returns (outcome: Outcome)
      modifies this
      ensures Refines(Spec.UndelegateBw(old(Value()), from, receiver, net, cpu, activated), outcome)
    {
      hide Spec.ChangeBw;
      outcome := Done;
      :- Check(0 <= net && 0 <= cpu && 0 < net + cpu, Rejected);
      :- Check(activated, Rejected);
      :- ChangeBw(from, receiver, -net, -cpu, false);
    }

    method Refund(owner: Name) returns (outcome: Outcome)
      modifies this`tokens, this`refunds, this`log
      ensures Refines(ClaimRefund(old(Value()), owner), outcome)
    {
      hide Ledger.Transfer;
      outcome := Done;
      :- Check(owner in refunds, Rejected);
      var req := refunds[owner];
      :- Check(req.time * 1_000_000 + REFUND_DELAY <= now, Rejected);
      :- Transfer(STAKE_ACCOUNT, owner, req.net + req.cpu, Broken);
      refunds := refunds - {owner};
      log := log.(refunded := log.refunded[owner := At(log.refunded, owner) + req.net + req.cpu]);
    }

    // -------------------------------------------------------------------------------------------
    // What other components of the contract, and the chain around it, do to these tables.

    method SetRex(rent: int) returns (outcome: Outcome)
      modifies this`pool
      ensures Refines(Spec.SetRex(old(Value()), rent), outcome)
    {
      outcome := Done;
      :- Check(rent > 0, Rejected);
      :- Check(pool.Some?, Rejected);
      pool := Some(pool.value.(rent := rent));
    }

    method Register(owner: Name)
      modifies this`staked
      ensures Value() == Spec.Register(old(Value()), owner)
    {
      if owner !in staked {
        staked := staked[owner := 0];
      }
    }

    method SetRam(owner: Name, bytes: nat)
      modifies this`resources
      ensures Value() == Spec.SetRam(old(Value()), owner, bytes)
    {
      var r := if owner in resources then resources[owner] else Resources(0, 0, 0);
      resources := resources[owner := r.(ram := bytes)];
    }

    method AddNamebid(bid: nat)
      modifies this`pool
      ensures Value() == Spec.AddNamebid(old(Value()), bid)
    {
      if pool.Some? && pool.value.rex > 0 {
        pool := Some(pool.value.(namebid := pool.value.namebid + bid));
      }
    }

    method Advance(time: int) returns (outcome: Outcome)
      modifies this`now
      ensures Refines(Spec.Advance(old(Value()), time), outcome)
    {
      hide Maturity;
      outcome := Done;
      :- Check(now <= time && Maturity(Sec(time)) < END_OF_DAYS, Rejected);
      now := time;
    }

    /** Actions that trade or move REX. */
    method ActOnRex(a: Action) returns (outcome: Outcome)
      requires a.ActBuyRex? || a.ActUnstakeToRex? || a.ActSellRex? || a.ActUpdateRex? || a.ActRexExec? || a.ActConsolidate?
               || a.ActMvToSavings? || a.ActMvFromSavings? || a.ActCloseRex?
      modifies this
      ensures Refines(Step(old(Value()), a), outcome)
    {
      hide DepositTo, WithdrawFrom, Spec.BuyRex, Spec.UnstakeToRex, Spec.SellRex, CancelOrder, Rent, FundLoan, DefundLoan,
           Spec.UpdateRex, Spec.SetRex, Spec.RunRex, ConsolidateRex, Spec.MvToSavings, Spec.MvFromSavings, Spec.CloseRex,
           ClaimRefund, Spec.UpdateRexStake, Spec.Register, Spec.SetRam, Spec.ChannelToRex, Spec.AddNamebid, Pay, Spec.Advance,
           Spec.DelegateBw, Spec.UndelegateBw;
      match a
      case ActBuyRex(owner, amount, voted) => outcome := BuyRex(owner, amount, voted);
      case ActUnstakeToRex(owner, receiver, net, cpu, voted) => outcome := UnstakeToRex(owner, receiver, net, cpu, voted);
      case ActSellRex(owner, rex) => outcome := SellRex(owner, rex);
      case ActUpdateRex(owner) => outcome := UpdateRex(owner);
      case ActRexExec(_, max) => outcome := RunRex(max);
      case ActConsolidate(owner) => outcome := Consolidate(owner);
      case ActMvToSavings(owner, rex) => outcome := MvToSavings(owner, rex);
      case ActMvFromSavings(owner, rex) => outcome := MvFromSavings(owner, rex);
      case ActCloseRex(owner) => outcome := CloseRex(owner);
    }

    /** Actions on funds, orders, loans and stakes. */
    method ActOnFunds(a: Action) returns (outcome: Outcome)
      requires a.Deposit? || a.Withdraw? || a.ActCancelOrder? || a.ActRent? || a.ActFundLoan? || a.ActDefundLoan?
               || a.ActDelegateBw? || a.ActUndelegateBw? || a.ActRefund?
      modifies this
      ensures Refines(Step(old(Value()), a), outcome)
    {
      hide DepositTo, WithdrawFrom, Spec.BuyRex, Spec.UnstakeToRex, Spec.SellRex, CancelOrder, Rent, FundLoan, DefundLoan,
           Spec.UpdateRex, Spec.SetRex, Spec.RunRex, ConsolidateRex, Spec.MvToSavings, Spec.MvFromSavings, Spec.CloseRex,
           ClaimRefund, Spec.UpdateRexStake, Spec.Register, Spec.SetRam, Spec.ChannelToRex, Spec.AddNamebid, Pay, Spec.Advance,
           Spec.DelegateBw, Spec.UndelegateBw;
      match a
      case Deposit(owner, amount) => outcome := Deposit(owner, amount);
      case Withdraw(owner, amount) => outcome := Withdraw(owner, amount);
      case ActCancelOrder(owner) => outcome := CancelRexOrder(owner);
      case ActRent(kind, owner, receiver, payment, fund) => outcome := RentRex(kind, owner, receiver, payment, fund);
      case ActFundLoan(kind, owner, loan, payment) => outcome := FundRexLoan(kind, owner, loan, payment);
      case ActDefundLoan(kind, owner, loan, amount) => outcome := DefundRexLoan(kind, owner, loan, amount);
      case ActDelegateBw(owner, receiver, net, cpu, transfer) => outcome := DelegateBw(owner, receiver, net, cpu, transfer);
      case ActUndelegateBw(owner, receiver, net, cpu, activated) => outcome := UndelegateBw(owner, receiver, net, cpu, activated);
      case ActRefund(owner) => outcome := Refund(owner);
    }

    /** What other components of the contract do to these tables. */
    method ActBeside(a: Action) returns (outcome: Outcome)
      requires a.ActVote? || a.ActRegister? || a.ActRam? || a.ActNamebid?
      modifies this
      ensures Refines(Step(old(Value()), a), outcome)
    {
      hide DepositTo, WithdrawFrom, Spec.BuyRex, Spec.UnstakeToRex, Spec.SellRex, CancelOrder, Rent, FundLoan, DefundLoan,
           Spec.UpdateRex, Spec.SetRex, Spec.RunRex, ConsolidateRex, Spec.MvToSavings, Spec.MvFromSavings, Spec.CloseRex,
           ClaimRefund, Spec.UpdateRexStake, Spec.Register, Spec.SetRam, Spec.ChannelToRex, Spec.AddNamebid, Pay, Spec.Advance,
           Spec.DelegateBw, Spec.UndelegateBw;
      outcome := Done;
      match a
      case ActVote(owner) => UpdateRexStake(owner);
      case ActRegister(owner) => Register(owner);
      case ActRam(owner, bytes) => SetRam(owner, bytes);
      case ActNamebid(_, bid) => AddNamebid(bid);
    }

    /** Fees, settings, and what the chain does. */
    method ActAround(a: Action) returns (outcome: Outcome)
      requires a.ActSetRex? || a.ActFee? || a.ActTransfer? || a.ActTime?
      modifies this
      ensures Refines(Step(old(Value()), a), outcome)
    {
      hide DepositTo, WithdrawFrom, Spec.BuyRex, Spec.UnstakeToRex, Spec.SellRex, CancelOrder, Rent, FundLoan, DefundLoan,
           Spec.UpdateRex, Spec.SetRex, Spec.RunRex, ConsolidateRex, Spec.MvToSavings, Spec.MvFromSavings, Spec.CloseRex,
           ClaimRefund, Spec.UpdateRexStake, Spec.Register, Spec.SetRam, Spec.ChannelToRex, Spec.AddNamebid, Pay, Spec.Advance,
           Spec.DelegateBw, Spec.UndelegateBw;
      match a
      case ActSetRex(_, rent) => outcome := SetRex(rent);
      case ActFee(owner, amount) => outcome := ChannelToRex(owner, amount);
      case ActTransfer(owner, to, amount) => outcome := Transfer(owner, to, amount, Rejected);
      case ActTime(_, time) => outcome := Advance(time);
    }

    method Act(a: Action) returns (outcome: Outcome)
      modifies this
      ensures Refines(Step(old(Value()), a), outcome)
    {
      hide Step;
      if a.ActBuyRex? || a.ActUnstakeToRex? || a.ActSellRex? || a.ActUpdateRex? || a.ActRexExec? || a.ActConsolidate?
         || a.ActMvToSavings? || a.ActMvFromSavings? || a.ActCloseRex? {
        outcome := ActOnRex(a);
      } else if a.Deposit? || a.Withdraw? || a.ActCancelOrder? || a.ActRent? || a.ActFundLoan? || a.ActDefundLoan?
                || a.ActDelegateBw? || a.ActUndelegateBw? || a.ActRefund? {
        outcome := ActOnFunds(a);
      } else if a.ActVote? || a.ActRegister? || a.ActRam? || a.ActNamebid? {
        outcome := ActBeside(a);
      } else {
        outcome := ActAround(a);
      }
    }

    /** What the chain does to the exchange's own tables when an action aborts. */
    method RestoreExchange(pool: Option<Pool>, funds: map<Name, int>, balances: map<Name, Balance>, orders: map<Name, Order>,
                           loans: Loans, ghost log: Log)
      modifies this`pool, this`funds, this`balances, this`orders, this`loans, this`log
      ensures this.pool == pool && this.funds == funds && this.balances == balances && this.orders == orders
      ensures this.loans == loans && this.log == log
    {
      this.pool, this.funds, this.balances, this.orders, this.loans := pool, funds, balances, orders, loans;
      this.log := log;
    }

    /** ... and to the tables it shares. */
    method RestoreShared(delegated: Delegations, resources: map<Name, Resources>, refunds: map<Name, Refund>,
                         staked: map<Name, int>, tokens: Tokens, now: int)
      modifies this`delegated, this`resources, this`refunds, this`staked, this`tokens, this`now
      ensures this.delegated == delegated && this.resources == resources && this.refunds == refunds
      ensures this.staked == staked && this.tokens == tokens && this.now == now
    {
      this.delegated, this.resources, this.refunds, this.staked := delegated, resources, refunds, staked;
      this.tokens, this.now := tokens, now;
    }

    /** An action on the chain: an abort undoes it. No abort is ever the contract's own fault. */
    method Perform(a: Action) returns (outcome: Outcome)
      requires Steady(Value()) && Outside(a)
      modifies this
      ensures Steady(Value())
      ensures outcome == Done || outcome == Aborted(Rejected)
      ensures outcome == Done ==> Step(old(Value()), a) == Ok(Value())
      ensures outcome != Done ==> Value() == old(Value()) && Step(old(Value()), a).Err?
    {
      hide Step, Steady, Outside;
      StepIsSteady(Value(), a);
      ghost var history := log;
      var pool0, funds0, balances0, orders0, loans0, delegated0 := pool, funds, balances, orders, loans, delegated;
      var resources0, refunds0, staked0, tokens0, now0 := resources, refunds, staked, tokens, now;
      outcome := Act(a);
      if outcome != Done {
        RestoreExchange(pool0, funds0, balances0, orders0, loans0, history);
        RestoreShared(delegated0, resources0, refunds0, staked0, tokens0, now0);
      }
    }
  }
}
