/** Which actions issue shares, fill the pool anew, or touch what voting stakes drift by. */
module ExchangeHistory {
  import opened Basics
  import opened Ledger
  import opened RexPool
  import opened RexBalance
  import opened Exchange
  import opened ExchangeBooks
  import opened ExchangeOrders
  import opened ExchangeRuns

  /** No shares issued, and no stake adrift. */
  predicate Still(s: State, t: State) {
    && t.log.purchases == s.log.purchases && t.log.epoch == s.log.epoch
    && t.log.drift == s.log.drift && t.log.dust == s.log.dust
  }

  predicate KeepsStill(s: State, r: Result<State>) {
    r.Ok? ==> Still(s, r.value)
  }

  /** Nothing staked, unstaked or refunded, and no time passing. */
  predicate Waits(s: State, t: State) {
    && t.refunds == s.refunds && t.log.unstaked == s.log.unstaked && t.log.refunded == s.log.refunded && t.now == s.now
  }

  /** Neither of these. */
  predicate Quiet(s: State, t: State) {
    Still(s, t) && Waits(s, t)
  }

  predicate Quietly(s: State, r: Result<State>) {
    r.Ok? ==> Quiet(s, r.value)
  }

  // ---------------------------------------------------------------------------------------------

  lemma FillQueuedQuiet(s: State, owner: Name)
    requires owner in s.orders
    ensures Quietly(s, FillQueued(s, owner))
  {
    hide Fill, Worth;
  }

  lemma {:induction false} FillOrdersQuiet(s: State, queue: seq<Name>, max: nat)
    ensures Quietly(s, FillOrders(s, queue, max))
    decreases max
  {
    hide FillQueued;
    if max > 0 && queue != [] && queue[0] in s.orders && s.orders[queue[0]].open {
      FillQueuedQuiet(s, queue[0]);
      var t := FillQueued(s, queue[0]);
      if t.Ok? {
        FillOrdersQuiet(t.value, queue[1..], max - 1);
      }
    }
  }

  lemma LimitsFrame(s: State, kind: Kind, receiver: Name, delta: int)
    ensures var r := LimitsOf(s, kind, receiver, delta); r.Ok? ==> r.value == s.(resources := r.value.resources)
  {
    hide Limits;
  }

  lemma PayFrame(s: State, from: Name, to: Name, quantity: int, shortage: Error)
    ensures var r := Pay(s, from, to, quantity, shortage); r.Ok? ==> r.value == s.(tokens := r.value.tokens)
  {
    hide Transfer;
  }

  lemma ToFundFrame(s: State, owner: Name, amount: int)
    ensures var r := ToFund(s, owner, amount); r.Ok? ==> r.value == s.(funds := r.value.funds)
  {
  }

  lemma FromFundFrame(s: State, owner: Name, amount: int)
    ensures var r := FromFund(s, owner, amount); r.Ok? ==> r.value == s.(funds := r.value.funds)
  {
  }

  lemma RenewQuiet(s: State, kind: Kind, n: nat, q: Pool, rented: int)
    requires n in s.loans.Of(kind)
    ensures Quietly(s, Renew(s, kind, n, q, rented))
  {
    hide LimitsOf, AddLoan;
    var loan := s.loans.Of(kind)[n];
    var renewed := loan.(staked := rented, expiration := loan.expiration + LOAN_TERM, balance := loan.balance - loan.payment);
    var t := s.(pool := Some(AddLoan(q, loan.payment, rented, false)),
                loans := s.loans.With(kind, s.loans.Of(kind)[n := renewed]));
    LimitsFrame(Record(t, loan.from, ForRenewal, loan.payment), kind, loan.receiver, rented - loan.staked);
  }

  lemma CloseQuiet(s: State, kind: Kind, n: nat, q: Pool)
    requires n in s.loans.Of(kind)
    ensures Quietly(s, CloseLoan(s, kind, n, q))
  {
    hide LimitsOf, Credit;
    var loan := s.loans.Of(kind)[n];
    var t := s.(pool := Some(q), loans := s.loans.With(kind, s.loans.Of(kind) - {n}));
    CreditFrame(t, loan.from, loan.balance, []);
    var u := Credit(t, loan.from, loan.balance, []);
    if u.Ok? {
      LimitsFrame(u.value, kind, loan.receiver, -loan.staked);
    }
  }

  lemma ProcessLoanQuiet(s: State, kind: Kind, n: nat)
    requires n in s.loans.Of(kind)
    ensures Quietly(s, ProcessLoan(s, kind, n))
  {
    hide RemoveLoan, BancorOutput, LoansAvailable, Renew, CloseLoan;
    if s.pool.Some? {
      var q := RemoveLoan(s.pool.value, s.loans.Of(kind)[n].staked);
      if q.Ok? {
        var rented := BancorOutput(q.value.rent, q.value.unlent, s.loans.Of(kind)[n].payment);
        if rented.Ok? {
          RenewQuiet(s, kind, n, q.value, rented.value);
        }
        CloseQuiet(s, kind, n, q.value);
      }
    }
  }

  lemma {:induction false} ProcessLoansQuiet(s: State, kind: Kind, max: nat)
    ensures Quietly(s, ProcessLoans(s, kind, max))
    decreases max
  {
    hide ProcessLoan, Expired;
    var expired := Expired(s.loans.Of(kind), s.now);
    if max > 0 && expired.Some? {
      ProcessLoanQuiet(s, kind, expired.value);
      var t := ProcessLoan(s, kind, expired.value);
      if t.Ok? {
        ProcessLoansQuiet(t.value, kind, max - 1);
      }
    }
  }

  lemma ChannelQuiet(s: State, from: Name, amount: int)
    ensures Quietly(s, ChannelToRex(s, from, amount))
  {
    hide Pay, Channel;
    if RexAvailable(s) {
      PayFrame(s.(pool := Some(Channel(s.pool.value, amount))), from, REX_ACCOUNT, amount, Rejected);
    }
  }

  lemma ChannelNamebidsQuiet(s: State)
    ensures Quietly(s, ChannelNamebids(s))
  {
    hide ChannelToRex;
    if s.pool.Some? {
      ChannelQuiet(s, NAMES_ACCOUNT, s.pool.value.namebid);
    }
  }

  lemma RunRexQuiet(s: State, max: nat)
    ensures Quietly(s, RunRex(s, max))
  {
    hide ChannelNamebids, ProcessLoans, FillOrders, Queue;
    ChannelNamebidsQuiet(s);
    var r1 := ChannelNamebids(s);
    if r1.Ok? {
      ProcessLoansQuiet(r1.value, Cpu, max);
      var r2 := ProcessLoans(r1.value, Cpu, max);
      if r2.Ok? {
        ProcessLoansQuiet(r2.value, Net, max);
        var r3 := ProcessLoans(r2.value, Net, max);
        if r3.Ok? {
          FillOrdersQuiet(r3.value, Queue(r3.value.orders), max);
        }
      }
    }
  }

  lemma ClaimOrderFrame(s: State, owner: Name)
    ensures var t := ClaimOrder(s, owner).0; t == s.(orders := t.orders)
  {
  }

  lemma UpdateAccountQuiet(s: State, owner: Name, proceeds: int, stake: int, force: bool)
    ensures Quietly(s, UpdateAccount(s, owner, proceeds, stake, force))
  {
    hide Credit, ChangeVotes, Amount, ClaimOrder;
    ClaimOrderFrame(s, owner);
    var (t, filled, change) := ClaimOrder(s, owner);
    CreditFrame(t, owner, proceeds + Amount(filled), filled);
    var u := Credit(t, owner, proceeds + Amount(filled), filled);
    if u.Ok? {
      ChangeVotesFrame(u.value, owner, stake + change);
    }
  }

  lemma RecordQuiet(s: State, owner: Name, reason: Reason, amount: int)
    ensures var t := Record(s, owner, reason, amount); t == s.(log := s.log.(deals := t.log.deals))
  {
  }

  lemma FillOrderQuiet(s: State, owner: Name, rex: int)
    requires owner in s.balances
    ensures FillOrder(s, owner, rex).Ok? ==> Quiet(s, FillOrder(s, owner, rex).value.0)
  {
    hide Worth, Sold, Record;
    if s.pool.Some? && s.pool.value.rex != 0 {
      var filled := Fill(s.pool.value, rex).value;
      if filled.Some? {
        var (q, proceeds) := filled.value;
        var stake := Worth(s.pool.value, s.balances[owner].rex) - proceeds;
        RecordQuiet(s.(pool := Some(q), balances := s.balances[owner := Sold(s.balances[owner], stake, rex)],
                       log := s.log.(sales := s.log.sales + [Sale(owner, rex)])),
                    owner, FromSale, proceeds);
      }
    }
  }

  lemma SellMaturedQuiet(s: State, owner: Name, rex: int)
    requires owner in s.balances
    ensures Quietly(s, SellMatured(s, owner, rex))
  {
    hide FillOrder, UpdateAccount, Enqueue, InOrder;
    FillOrderQuiet(s, owner, rex);
    var r := FillOrder(s, owner, rex);
    if r.Ok? {
      var (t, filled) := r.value;
      if filled.Some? {
        UpdateAccountQuiet(t, owner, filled.value.0, filled.value.1, false);
      } else {
        UpdateAccountQuiet(t, owner, 0, 0, false);
        var u := UpdateAccount(t, owner, 0, 0, false);
        if u.Ok? {
          EnqueueQuiet(u.value, owner, rex);
        }
      }
    }
  }

  lemma EnqueueQuiet(s: State, owner: Name, rex: int)
    ensures var t := Enqueue(s, owner, rex); Quiet(s, t) && owner in t.orders
  {
  }

  lemma SellRexQuiet(s: State, owner: Name, rex: int)
    ensures Quietly(s, SellRex(s, owner, rex))
  {
    hide RunRex, Mature, SellMatured;
    RunRexQuiet(s, 2);
    var r := RunRex(s, 2);
    if r.Ok? && owner in r.value.balances {
      SellMaturedQuiet(SetBalance(r.value, owner, Mature(r.value.balances[owner], Sec(r.value.now))), owner, rex);
    }
  }

  lemma RentQuiet(s: State, kind: Kind, from: Name, receiver: Name, payment: int, fund: int)
    ensures Quietly(s, Rent(s, kind, from, receiver, payment, fund))
  {
    hide RunRex, FrontOpen, BancorOutput, Limits, AddLoan;
    RunRexQuiet(s, 2);
  }

  /** Moving REX between buckets, or revaluing it. */
  lemma RowsQuiet(s: State, owner: Name, rex: int)
    ensures Quietly(s, UpdateRex(s, owner)) && Quietly(s, ConsolidateRex(s, owner))
    ensures Quietly(s, MvToSavings(s, owner, rex)) && Quietly(s, MvFromSavings(s, owner, rex))
  {
    hide RunRex, UpdateAccount, Mature, Consolidate, MoveToSavings, MoveFromSavings, Worth, InOrder;
    RunRexQuiet(s, 2);
    var r := RunRex(s, 2);
    if r.Ok? {
      UpdateAccountQuiet(r.value, owner, 0, 0, false);
      if owner in r.value.balances {
        var t := r.value;
        var stake := PresentStake(t, owner);
        UpdateAccountQuiet(SetVoteStake(t, owner, stake), owner, 0, stake - t.balances[owner].voteStake, true);
        var b := MoveFromSavings(t.balances[owner], rex, Sec(t.now));
        if b.Ok? {
          UpdateAccountQuiet(SetBalance(t, owner, b.value), owner, 0, 0, false);
        }
      }
    }
  }

  lemma UpdateLimitsFrame(s: State, receiver: Name, net: int, cpu: int)
    ensures var r := UpdateLimits(s, receiver, net, cpu); r.Ok? ==> r.value == s.(resources := r.value.resources)
  {
    hide Limits;
  }

  lemma SettleQuiet(s: State, source: Name, from: Name, receiver: Name, net: int, cpu: int, transfer: bool)
    ensures KeepsStill(s, SettleStake(s, source, from, receiver, net, cpu, transfer))
  {
    hide Settlement, Pay;
    var settled := Settlement(s, from, receiver, net, cpu, transfer);
    PayFrame(LogUnstaking(s.(refunds := settled.0), from, -(net + cpu)), source, STAKE_ACCOUNT, settled.1, Rejected);
  }

  lemma UpdateRexStakeFrame(s: State, voter: Name) returns (rows: map<Name, Balance>, stakes: map<Name, int>)
    ensures UpdateRexStake(s, voter) == s.(balances := rows, staked := stakes)
  {
    hide Worth;
    rows, stakes := s.balances, s.staked;
    if voter in s.balances && RexAvailable(s) {
      var stake := Worth(s.pool.value, s.balances[voter].rex);
      rows := s.balances[voter := s.balances[voter].(voteStake := stake)];
      if stake != s.balances[voter].voteStake && voter in s.staked {
        stakes := s.staked[voter := s.staked[voter] + stake - s.balances[voter].voteStake];
      }
    }
  }

  lemma UpdateRexStakeQuiet(s: State, voter: Name)
    ensures Quiet(s, UpdateRexStake(s, voter))
  {
    hide UpdateRexStake;
    var balances, staked := UpdateRexStakeFrame(s, voter);
  }

  lemma StakingQuiet(s: State, source: Name, receiver: Name, net: int, cpu: int, transfer: bool)
    ensures KeepsStill(s, ChangeBw(s, source, receiver, net, cpu, transfer))
  {
    hide UpdateLimits, SettleStake, UpdateRexStake, ChangeVotes, Abs, PutWeights;
    var from := if transfer then receiver else source;
    var r1 := Delegated(s, from, receiver, net, cpu);
    if r1.Ok? {
      var r2 := UpdateLimits(r1.value, receiver, net, cpu);
      UpdateLimitsFrame(r1.value, receiver, net, cpu);
      if r2.Ok? {
        SettleQuiet(r2.value, source, from, receiver, net, cpu, transfer);
        var r3 := if source == STAKE_ACCOUNT then Ok(r2.value) else SettleStake(r2.value, source, from, receiver, net, cpu, transfer);
        if r3.Ok? {
          UpdateRexStakeQuiet(r3.value, from);
          ChangeVotesFrame(UpdateRexStake(r3.value, from), from, net + cpu);
        }
      }
    }
  }

  lemma AddToLoanFrame(s: State, kind: Kind, n: nat, amount: int)
    requires n in s.loans.Of(kind)
    ensures var t := AddToLoan(s, kind, n, amount); t == s.(loans := t.loans)
  {
  }

  lemma DepositQuiet(s: State, owner: Name, amount: int)
    ensures Quietly(s, DepositTo(s, owner, amount))
  {
    hide Pay, ToFund;
    PayFrame(s, owner, REX_ACCOUNT, amount, Rejected);
    var r := Pay(s, owner, REX_ACCOUNT, amount, Rejected);
    if r.Ok? {
      ToFundFrame(Record(r.value, owner, PaidIn, amount), owner, amount);
    }
  }

  lemma WithdrawQuiet(s: State, owner: Name, amount: int)
    ensures Quietly(s, WithdrawFrom(s, owner, amount))
  {
    hide Pay, UpdateAccount, FromFund;
    UpdateAccountQuiet(s, owner, 0, 0, false);
    var r1 := UpdateAccount(s, owner, 0, 0, false);
    if r1.Ok? {
      FromFundFrame(r1.value, owner, amount);
      var r2 := FromFund(r1.value, owner, amount);
      if r2.Ok? {
        PayFrame(Record(r2.value, owner, PaidOut, amount), REX_ACCOUNT, owner, amount, Broken);
      }
    }
  }

  lemma LoanFundsQuiet(s: State, owner: Name, amount: int, kind: Kind, n: nat)
    ensures Quietly(s, FundLoan(s, kind, owner, n, amount)) && Quietly(s, DefundLoan(s, kind, owner, n, amount))
  {
    hide ToFund, FromFund, AddToLoan;
    FromFundFrame(s, owner, amount);
    var r := FromFund(s, owner, amount);
    if r.Ok? && Current(r.value, kind, owner, n) {
      AddToLoanFrame(r.value, kind, n, amount);
    }
    if Current(s, kind, owner, n) {
      AddToLoanFrame(s, kind, n, -amount);
      ToFundFrame(AddToLoan(s, kind, n, -amount), owner, amount);
    }
  }

  lemma AdvanceQuiet(s: State, now: int)
    ensures KeepsStill(s, Advance(s, now))
  {
  }

  lemma CancelQuiet(s: State, owner: Name)
    ensures Quietly(s, CancelOrder(s, owner))
  {
  }

  lemma RefundQuiet(s: State, owner: Name)
    ensures KeepsStill(s, ClaimRefund(s, owner))
  {
    hide Pay;
    if owner in s.refunds {
      PayFrame(s, STAKE_ACCOUNT, owner, s.refunds[owner].net + s.refunds[owner].cpu, Broken);
    }
  }

  lemma PoolFieldsQuiet(s: State, rent: int, bid: nat)
    ensures Quietly(s, SetRex(s, rent)) && Quiet(s, AddNamebid(s, bid))
  {
    hide Quiet;
    SameLog(s, s);
    if s.pool.Some? {
      SameLog(s, s.(pool := Some(s.pool.value.(rent := rent))));
      SameLog(s, s.(pool := Some(s.pool.value.(namebid := s.pool.value.namebid + bid))));
    }
  }

  lemma SameLog(s: State, t: State)
    requires t.log == s.log && t.refunds == s.refunds && t.now == s.now
    ensures Quiet(s, t)
  {
  }

  lemma NewRowsQuiet(s: State, owner: Name, bytes: nat)
    ensures Quiet(s, Register(s, owner)) && Quiet(s, SetRam(s, owner, bytes))
  {
  }

  lemma PayQuiet(s: State, from: Name, to: Name, quantity: int)
    ensures Quietly(s, Pay(s, from, to, quantity, Rejected))
  {
    hide Pay;
    PayFrame(s, from, to, quantity, Rejected);
  }

  /** Actions of the exchange that neither buy nor close an account. */
  predicate Trades(a: Action) {
    a.Deposit? || a.Withdraw? || a.ActSellRex? || a.ActRent? || a.ActFundLoan? || a.ActDefundLoan? || a.ActUpdateRex?
    || a.ActRexExec? || a.ActConsolidate? || a.ActMvToSavings? || a.ActMvFromSavings?
  }

  lemma TradesQuiet(s: State, a: Action)
    requires Trades(a)
    ensures Quietly(s, Step(s, a))
  {
    hide DepositTo, WithdrawFrom, SellRex, Rent, FundLoan, DefundLoan, UpdateRex, RunRex, ConsolidateRex, MvToSavings,
         MvFromSavings, Quiet;
    match a
    case Deposit(owner, amount) => DepositQuiet(s, owner, amount);
    case Withdraw(owner, amount) => WithdrawQuiet(s, owner, amount);
    case ActSellRex(owner, rex) => SellRexQuiet(s, owner, rex);
    case ActRent(kind, owner, receiver, payment, fund) => RentQuiet(s, kind, owner, receiver, payment, fund);
    case ActFundLoan(kind, owner, loan, payment) => LoanFundsQuiet(s, owner, payment, kind, loan);
    case ActDefundLoan(kind, owner, loan, amount) => LoanFundsQuiet(s, owner, amount, kind, loan);
    case ActUpdateRex(owner) => RowsQuiet(s, owner, 0);
    case ActRexExec(_, max) => RunRexQuiet(s, max);
    case ActConsolidate(owner) => RowsQuiet(s, owner, 0);
    case ActMvToSavings(owner, rex) => RowsQuiet(s, owner, rex);
    case ActMvFromSavings(owner, rex) => RowsQuiet(s, owner, rex);
  }

  /** Actions on what is delegated and what waits for its refund. */
  predicate Restakes(a: Action) {
    a.ActDelegateBw? || a.ActUndelegateBw? || a.ActRefund?
  }

  /** Only buying issues shares, and only unstaking into REX and closing an account cause drift. */
  lemma OtherStepsQuiet(s: State, a: Action)
    requires !a.ActBuyRex? && !a.ActUnstakeToRex? && !a.ActCloseRex?
    ensures KeepsStill(s, Step(s, a))
    ensures !Restakes(a) && !a.ActTime? ==> Quietly(s, Step(s, a))
  {
    hide Step, ChangeBw, Pay, ChannelToRex, UpdateRexStake, ClaimRefund, CancelOrder, SetRex, Register, SetRam, AddNamebid,
         Advance, Still, Waits;
    if Trades(a) {
      TradesQuiet(s, a);
    } else {
      StakesQuiet(s, a);
    }
  }

  lemma StakesQuiet(s: State, a: Action)
    requires !Trades(a) && !a.ActBuyRex? && !a.ActUnstakeToRex? && !a.ActCloseRex?
    ensures KeepsStill(s, Step(s, a))
    ensures !Restakes(a) && !a.ActTime? ==> Quietly(s, Step(s, a))
  {
    hide ChangeBw, Pay, ChannelToRex, UpdateRexStake, ClaimRefund, CancelOrder, SetRex, Register, SetRam, AddNamebid,
         Advance, Still, Waits;
    match a
    case ActDelegateBw(owner, receiver, net, cpu, transfer) => StakingQuiet(s, owner, receiver, net, cpu, transfer);
    case ActUndelegateBw(owner, receiver, net, cpu, _) => StakingQuiet(s, owner, receiver, -net, -cpu, false);
    case ActVote(owner) => UpdateRexStakeQuiet(s, owner);
    case ActFee(owner, amount) => ChannelQuiet(s, owner, amount);
    case ActCancelOrder(owner) => CancelQuiet(s, owner);
    case ActRefund(owner) => RefundQuiet(s, owner);
    case ActSetRex(_, rent) => PoolFieldsQuiet(s, rent, 0);
    case ActNamebid(_, bid) => PoolFieldsQuiet(s, 0, bid);
    case ActRegister(owner) => NewRowsQuiet(s, owner, 0);
    case ActRam(owner, bytes) => NewRowsQuiet(s, owner, bytes);
    case ActTransfer(owner, to, amount) => PayQuiet(s, owner, to, amount);
    case ActTime(_, now) => AdvanceQuiet(s, now);
  }

  // ---------------------------------------------------------------------------------------------
  // The three that are not quiet.

  lemma BuyInHistory(s: State, owner: Name, payment: int)
    ensures var r := BuyIn(s, owner, payment);
            r.Ok? ==>
              && r.value.0.log.drift == s.log.drift && Waits(s, r.value.0)
              && r.value.0.log.epoch == (if RexAvailable(s) then s.log.epoch else s.log.epoch + 1)
  {
    hide Buy, Worth, AddPurchase, Maturity;
  }

  lemma BuyRexHistory(s: State, owner: Name, amount: int, voted: bool)
    ensures var r := BuyRex(s, owner, amount, voted);
            r.Ok? ==>
              && r.value.log.drift == s.log.drift && Waits(s, r.value)
              && r.value.log.epoch == (if RexAvailable(s) then s.log.epoch else s.log.epoch + 1)
  {
    hide BuyIn, RunRex, UpdateAccount;
    var r1 := FromFund(s, owner, amount);
    if r1.Ok? {
      var u := Record(r1.value, owner, ForShares, amount);
      BuyInHistory(u, owner, amount);
      var r2 := BuyIn(u, owner, amount);
      if r2.Ok? {
        RunRexQuiet(r2.value.0, 2);
        var r3 := RunRex(r2.value.0, 2);
        if r3.Ok? {
          UpdateAccountQuiet(r3.value, owner, 0, r2.value.1, false);
        }
      }
    }
  }

  lemma TakeDelegatedFrame(s: State, owner: Name, receiver: Name, net: int, cpu: int)
    ensures var r := TakeDelegated(s, owner, receiver, net, cpu);
            r.Ok? ==> r.value.log == s.log && r.value.balances == s.balances && r.value.pool == s.pool && Waits(s, r.value)
  {
    hide Limits, PutWeights, Transfer;
  }

  lemma UnstakeToRexHistory(s: State, owner: Name, receiver: Name, net: int, cpu: int, voted: bool)
    ensures var r := UnstakeToRex(s, owner, receiver, net, cpu, voted);
            r.Ok? ==> Waits(s, r.value) && r.value.log.epoch == if RexAvailable(s) then s.log.epoch else s.log.epoch + 1
  {
    hide TakeDelegated, BuyIn, RunRex, UpdateAccount;
    TakeDelegatedFrame(s, owner, receiver, net, cpu);
    var r1 := TakeDelegated(s, owner, receiver, net, cpu);
    if r1.Ok? {
      BuyInHistory(r1.value, owner, net + cpu);
      var r2 := BuyIn(r1.value, owner, net + cpu);
      if r2.Ok? {
        var t := AddDrift(r2.value.0, owner, net + cpu - r2.value.1);
        RunRexQuiet(t, 2);
        var r3 := RunRex(t, 2);
        if r3.Ok? {
          UpdateAccountQuiet(r3.value, owner, 0, 0, true);
        }
      }
    }
  }

  lemma CloseRexHistory(s: State, owner: Name)
    ensures var r := CloseRex(s, owner); r.Ok? ==> Waits(s, r.value) && r.value.log.epoch == s.log.epoch
  {
    hide RunRex, UpdateAccount, DropFund;
    RunRexQuiet(s, 2);
    var r1 := if s.pool.Some? then RunRex(s, 2) else Ok(s);
    if r1.Ok? {
      UpdateAccountQuiet(r1.value, owner, 0, 0, false);
      var r2 := UpdateAccount(r1.value, owner, 0, 0, false);
      if r2.Ok? {
        DropFundFrame(r2.value, owner);
      }
    }
  }

  /** The pool is filled anew only when it is empty. */
  lemma RefilledOnlyWhenEmpty(s: State, a: Action)
    requires Steady(s) && Outside(a) && Step(s, a).Ok? && RexAvailable(s)
    ensures Step(s, a).value.log.epoch == s.log.epoch
  {
    hide Sound, BuyRex, UnstakeToRex, CloseRex, SellRex, Rent, FundLoan, DefundLoan, UpdateRex, RunRex, ConsolidateRex,
         MvToSavings, MvFromSavings, ChangeBw, Pay, ChannelToRex, UpdateRexStake, ClaimRefund, DepositTo, WithdrawFrom;
    match a
    case ActBuyRex(owner, amount, voted) => BuyRexHistory(s, owner, amount, voted);
    case ActUnstakeToRex(owner, receiver, net, cpu, voted) => UnstakeToRexHistory(s, owner, receiver, net, cpu, voted);
    case ActCloseRex(owner) => CloseRexHistory(s, owner);
    case _ => OtherStepsQuiet(s, a);
  }
}
