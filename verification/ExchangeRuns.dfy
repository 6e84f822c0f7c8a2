/** Every action keeps the books of the exchange sound, and so does every run. */
module ExchangeRuns {
  import opened Basics
  import opened Ledger
  import opened RexPool
  import opened RexBalance
  import opened Exchange
  import opened ExchangeBooks
  import opened ExchangeParts
  import opened ExchangeLoans
  import opened ExchangeShares
  import opened ExchangeOrders
  import opened ExchangeStaking
  import opened Sums

  /** Nothing pending. */
  predicate Clear(c: Context) {
    c.money == 0 && c.stake == 0 && c.filled == [] && !c.selling
  }

  // ---------------------------------------------------------------------------------------------
  // Each action.

  lemma DepositKeeps(s: State, c: Context, amount: int)
    requires Sound(s, c) && Clear(c) && c.voter != STAKE_ACCOUNT
    ensures Keeps(DepositTo(s, c.voter, amount), c)
  {
    hide Sound, Pay, ToFund, Record;
    var d := c.(money := amount);
    if c.voter != REX_ACCOUNT {
      PayRexKeeps(s, c, c.voter, REX_ACCOUNT, amount, Rejected);
      var r := Pay(s, c.voter, REX_ACCOUNT, amount, Rejected);
      if r.Ok? {
        RecordKeeps(r.value, d, c.voter, PaidIn, amount);
        ToFundKeeps(Record(r.value, c.voter, PaidIn, amount), d, c.voter, amount);
      }
    } else {
      PayToSelf(s, amount);
    }
  }

  lemma PayToSelf(s: State, amount: int)
    ensures Pay(s, REX_ACCOUNT, REX_ACCOUNT, amount, Rejected) == Err(Rejected)
    ensures Pay(s, REX_ACCOUNT, REX_ACCOUNT, amount, Broken) == Err(Rejected)
  {
  }

  lemma WithdrawKeeps(s: State, c: Context, amount: int)
    requires Sound(s, c) && Clear(c) && c.voter != STAKE_ACCOUNT
    ensures Keeps(WithdrawFrom(s, c.voter, amount), c)
  {
    hide Sound, UpdateAccount, FromFund, Pay, Record;
    UpdateAccountKeeps(s, c, 0, false);
    var r1 := UpdateAccount(s, c.voter, 0, 0, false);
    if r1.Ok? {
      FromFundKeeps(r1.value, c, c.voter, amount);
      var r2 := FromFund(r1.value, c.voter, amount);
      if r2.Ok? {
        var d := c.(money := amount);
        RecordKeeps(r2.value, d, c.voter, PaidOut, amount);
        var t := Record(r2.value, c.voter, PaidOut, amount);
        OwedNonNegative(t, d);
        if c.voter != REX_ACCOUNT {
          PayRexKeeps(t, d, REX_ACCOUNT, c.voter, amount, Broken);
        } else {
          PayToSelf(t, amount);
        }
      }
    }
  }

  lemma BuyRexKeeps(s: State, c: Context, amount: int, voted: bool)
    requires Sound(s, c) && Clear(c)
    ensures Keeps(BuyRex(s, c.voter, amount, voted), c)
  {
    hide Sound, BuyIn, RunRex, UpdateAccount;
    if 0 < amount && c.voter in s.staked {
      FromFundKeeps(s, c, c.voter, amount);
      var r1 := FromFund(s, c.voter, amount);
      if r1.Ok? {
        RecordKeeps(r1.value, c.(money := amount), c.voter, ForShares, amount);
        var u := Record(r1.value, c.voter, ForShares, amount);
        BuyInKeeps(u, c.(money := amount), amount);
        var (t, change) := BuyIn(u, c.voter, amount).value;
        var d := c.(stake := change);
        RunRexKeeps(t, d, 2);
        var r2 := RunRex(t, 2);
        if r2.Ok? {
          UpdateAccountKeeps(r2.value, d, 0, false);
        }
      }
    }
  }

  lemma UnstakeToRexKeeps(s: State, c: Context, receiver: Name, net: int, cpu: int, voted: bool)
    requires Sound(s, c) && Clear(c)
    ensures Keeps(UnstakeToRex(s, c.voter, receiver, net, cpu, voted), c)
  {
    hide Sound, TakeDelegated, BuyIn, AddDrift, RunRex, UpdateAccount;
    if 0 <= net && 0 <= cpu && 0 < net + cpu && c.voter in s.staked {
      TakeDelegatedKeeps(s, c, receiver, net, cpu);
      var r1 := TakeDelegated(s, c.voter, receiver, net, cpu);
      if r1.Ok? {
        var d := c.(money := net + cpu, stake := -net - cpu);
        BuyInKeeps(r1.value, d, net + cpu);
        var (t, change) := BuyIn(r1.value, c.voter, net + cpu).value;
        AddDriftKeeps(t, c.(stake := change - net - cpu), net + cpu - change);
        var u := AddDrift(t, c.voter, net + cpu - change);
        RunRexKeeps(u, c, 2);
        var r2 := RunRex(u, 2);
        if r2.Ok? {
          UpdateAccountKeeps(r2.value, c, 0, true);
        }
      }
    }
  }

  lemma SellMaturedKeeps(s: State, c: Context, rex: int)
    requires Sound(s, c) && Clear(c) && CanSell(s, c.voter, rex)
    ensures Keeps(SellMatured(s, c.voter, rex), c)
  {
    hide Sound, FillOrder, UpdateAccount, Enqueue, InOrder;
    FillOrderKeeps(s, c, rex);
    var (t, filled) := FillOrder(s, c.voter, rex).value;
    if filled.Some? {
      var (proceeds, change) := filled.value;
      UpdateAccountKeeps(t, c.(money := proceeds, stake := change, selling := true), proceeds, false);
      var r := UpdateAccount(t, c.voter, proceeds, change, false);
      if r.Ok? && InOrder(r.value, c.voter) <= HoldingOf(r.value.balances, c.voter).matured {
        StillCovered(r.value, c.(selling := true));
      }
    } else {
      UpdateAccountKeeps(s, c, 0, false);
      UpdateAccountFrame(s, c.voter, 0, 0, false);
      var r := UpdateAccount(s, c.voter, 0, 0, false);
      if r.Ok? {
        EnqueuedOrder(r.value, c.voter, rex);
        if Enqueue(r.value, c.voter, rex).orders[c.voter].requested <= HoldingOf(r.value.balances, c.voter).matured {
          EnqueueKeeps(r.value, c, rex);
        }
      }
    }
  }

  lemma EnqueuedOrder(s: State, owner: Name, rex: int)
    ensures var t := Enqueue(s, owner, rex); owner in t.orders && t.balances == s.balances
  {
  }

  lemma SellRexKeeps(s: State, c: Context, rex: int)
    requires Sound(s, c) && Clear(c)
    ensures Keeps(SellRex(s, c.voter, rex), c)
  {
    hide Sound, RunRex, Mature, SellMatured;
    RunRexKeeps(s, c, 2);
    var r := RunRex(s, 2);
    if r.Ok? && c.voter in r.value.balances && rex > 0 {
      var t := r.value;
      MatureKeepsBooks(t, c);
      var b := Mature(t.balances[c.voter], Sec(t.now));
      if rex <= b.matured {
        SellMaturedKeeps(SetBalance(t, c.voter, b), c, rex);
      }
    }
  }

  lemma RentKeeps(s: State, c: Context, kind: Kind, receiver: Name, payment: int, fund: int)
    requires Sound(s, c) && Clear(c)
    ensures Keeps(Rent(s, kind, c.voter, receiver, payment, fund), c)
  {
    hide Sound, RunRex, FrontOpen, BancorOutput, OpenLoan;
    RunRexKeeps(s, c, 2);
    var r1 := RunRex(s, 2);
    if r1.Ok? && LoansAvailable(r1.value) && 0 < payment && 0 <= fund {
      FromFundKeeps(r1.value, c, c.voter, payment + fund);
      var r2 := FromFund(r1.value, c.voter, payment + fund);
      if r2.Ok? {
        var t := r2.value;
        RentNonNegative(t, c.(money := payment + fund));
        UnlentNonNegative(t, c.(money := payment + fund));
        BancorKeepsProduct(t.pool.value.rent, t.pool.value.unlent, payment);
        var rented := BancorOutput(t.pool.value.rent, t.pool.value.unlent, payment).value;
        if payment < rented {
          RecordKeeps(t, c.(money := payment + fund), c.voter, ForRent, payment);
          OpenLoanKeeps(Record(t, c.voter, ForRent, payment), c.(money := payment + fund), kind, c.voter, receiver, payment, fund,
                        rented);
        }
      }
    }
  }

  lemma UnlentNonNegative(s: State, c: Context)
    requires Sound(s, c) && s.pool.Some?
    ensures 0 <= s.pool.value.unlent
  {
    hide Later, Solvent, HoldingsOk, OrdersOk, Covered, FundsOk, DelegationsOk, Agree, StakeBacked, Tracked, NoEarlySale,
         CreditedOnce, NoDust, Lent;
  }

  lemma FundLoanKeeps(s: State, c: Context, kind: Kind, n: nat, payment: int)
    requires Sound(s, c) && Clear(c)
    ensures Keeps(FundLoan(s, kind, c.voter, n, payment), c)
  {
    hide Sound, AddToLoan;
    FromFundKeeps(s, c, c.voter, payment);
    var r := FromFund(s, c.voter, payment);
    if r.Ok? && Current(r.value, kind, c.voter, n) {
      LoanBalance(r.value, c.(money := payment), kind, n);
      AddToLoanKeeps(r.value, c.(money := payment), kind, n, payment);
    }
  }

  lemma LoanBalance(s: State, c: Context, kind: Kind, n: nat)
    requires Sound(s, c) && n in s.loans.Of(kind)
    ensures 0 <= s.loans.Of(kind)[n].balance
  {
    hide Later, Solvent, HoldingsOk, OrdersOk, Covered, FundsOk, DelegationsOk, Agree, StakeBacked, Tracked, NoEarlySale,
         CreditedOnce, NoDust, Lent, Balanced;
    assert LoanOk(s.loans.Of(kind)[n]);
  }

  lemma DefundLoanKeeps(s: State, c: Context, kind: Kind, n: nat, amount: int)
    requires Sound(s, c) && Clear(c)
    ensures Keeps(DefundLoan(s, kind, c.voter, n, amount), c)
  {
    hide Sound, AddToLoan, ToFund;
    if Current(s, kind, c.voter, n) && amount <= s.loans.Of(kind)[n].balance {
      AddToLoanKeeps(s, c, kind, n, -amount);
      ToFundKeeps(AddToLoan(s, kind, n, -amount), c.(money := amount), c.voter, amount);
    }
  }

  lemma UpdateRexKeeps(s: State, c: Context)
    requires Sound(s, c) && Clear(c)
    ensures Keeps(UpdateRex(s, c.voter), c)
  {
    hide Sound, RunRex, Worth, UpdateAccount, Mature;
    RunRexKeeps(s, c, 2);
    var r1 := RunRex(s, 2);
    if r1.Ok? && c.voter in r1.value.balances {
      var t := r1.value;
      PresentStakeSound(t, c, c.voter);
      var stake := PresentStake(t, c.voter);
      RevalueKeepsBooks(t, c, stake);
      var u := SetVoteStake(t, c.voter, stake);
      var d := c.(stake := stake - t.balances[c.voter].voteStake);
      UpdateAccountKeeps(u, d, 0, true);
      UpdateAccountFrame(u, c.voter, 0, d.stake, true);
      var r2 := UpdateAccount(u, c.voter, 0, d.stake, true);
      if r2.Ok? {
        MatureKeepsBooks(r2.value, c);
      }
    }
  }

  lemma ConsolidateRexKeeps(s: State, c: Context)
    requires Sound(s, c) && Clear(c)
    ensures Keeps(ConsolidateRex(s, c.voter), c)
  {
    hide Sound, RunRex, UpdateAccount, Consolidate;
    RunRexKeeps(s, c, 2);
    var r1 := RunRex(s, 2);
    if r1.Ok? && c.voter in r1.value.balances {
      UpdateAccountKeeps(r1.value, c, 0, false);
      UpdateAccountFrame(r1.value, c.voter, 0, 0, false);
      var r2 := UpdateAccount(r1.value, c.voter, 0, 0, false);
      if r2.Ok? {
        ConsolidateKeepsBooks(r2.value, c);
      }
    }
  }

  lemma MvToSavingsKeeps(s: State, c: Context, rex: int)
    requires Sound(s, c) && Clear(c)
    ensures Keeps(MvToSavings(s, c.voter, rex), c)
  {
    hide Sound, RunRex, UpdateAccount, MoveToSavings;
    RunRexKeeps(s, c, 2);
    var r1 := RunRex(s, 2);
    if r1.Ok? && c.voter in r1.value.balances && rex > 0 {
      UpdateAccountKeeps(r1.value, c, 0, false);
      UpdateAccountFrame(r1.value, c.voter, 0, 0, false);
      var r2 := UpdateAccount(r1.value, c.voter, 0, 0, false);
      if r2.Ok? {
        MoveToSavingsKeepsBooks(r2.value, c, rex);
      }
    }
  }

  lemma MvFromSavingsKeeps(s: State, c: Context, rex: int)
    requires Sound(s, c) && Clear(c)
    ensures Keeps(MvFromSavings(s, c.voter, rex), c)
  {
    hide Sound, RunRex, UpdateAccount, MoveFromSavings;
    RunRexKeeps(s, c, 2);
    var r1 := RunRex(s, 2);
    if r1.Ok? && c.voter in r1.value.balances && rex > 0 {
      MoveFromSavingsKeepsBooks(r1.value, c, rex);
      var r2 := MoveFromSavings(r1.value.balances[c.voter], rex, Sec(r1.value.now));
      if r2.Ok? {
        UpdateAccountKeeps(SetBalance(r1.value, c.voter, r2.value), c, 0, false);
      }
    }
  }

  lemma CloseRexKeeps(s: State, c: Context)
    requires Sound(s, c) && Clear(c)
    ensures Keeps(CloseRex(s, c.voter), c)
  {
    hide Sound, RunRex, UpdateAccount, DropFund, DropBalance;
    RunRexKeeps(s, c, 2);
    var r1 := if s.pool.Some? then RunRex(s, 2) else Ok(s);
    if r1.Ok? {
      UpdateAccountKeeps(r1.value, c, 0, false);
      UpdateAccountFrame(r1.value, c.voter, 0, 0, false);
      var r2 := UpdateAccount(r1.value, c.voter, 0, 0, false);
      if r2.Ok? {
        DropFundKeeps(r2.value, c, c.voter);
        DropFundFrame(r2.value, c.voter);
        DropBalanceKeeps(DropFund(r2.value, c.voter), c, c.voter);
      }
    }
  }

  lemma DropFundFrame(s: State, owner: Name)
    ensures var t := DropFund(s, owner); t == s.(funds := t.funds)
  {
  }

  lemma SetRexKeeps(s: State, c: Context, rent: int)
    requires Sound(s, c)
    ensures Keeps(SetRex(s, rent), c)
  {
    hide Sound;
    if rent > 0 && s.pool.Some? {
      RentNonNegative(s, c);
      OtherFieldsKeep(s, c, rent, s.pool.value.namebid);
    }
  }

  lemma AddNamebidKeeps(s: State, c: Context, bid: nat)
    requires Sound(s, c)
    ensures Sound(AddNamebid(s, bid), c)
  {
    hide Sound;
    if RexAvailable(s) {
      RentNonNegative(s, c);
      OtherFieldsKeep(s, c, s.pool.value.rent, s.pool.value.namebid + bid);
    }
  }

  // ---------------------------------------------------------------------------------------------
  // Every step.

  /** The exchange's account and the staking account sign nothing, and nobody else pays into them. */
  predicate Outside(a: Action) {
    && a.owner != REX_ACCOUNT && a.owner != STAKE_ACCOUNT
    && (a.ActTransfer? ==> a.to != REX_ACCOUNT && a.to != STAKE_ACCOUNT)
  }

  /** Whose vote an action may change. */
  function Voter(a: Action): Name {
    if a.ActDelegateBw? && a.transfer then a.receiver else a.owner
  }

  /** The actions of the exchange itself, for the account that takes them. */
  lemma RexStepKeeps(s: State, c: Context, a: Action)
    requires Sound(s, c) && Clear(c) && Outside(a) && c.voter == a.owner
    requires !a.ActDelegateBw? && !a.ActUndelegateBw?
    ensures Keeps(Step(s, a), c)
  {
    hide Sound, DepositTo, WithdrawFrom, BuyRex, UnstakeToRex, SellRex, CancelOrder, Rent, FundLoan, DefundLoan, UpdateRex,
         SetRex, RunRex, ConsolidateRex, MvToSavings, MvFromSavings, CloseRex, ClaimRefund, UpdateRexStake, Register, SetRam,
         ChannelToRex, AddNamebid, Pay, Advance;
    match a
    case Deposit(_, amount) => DepositKeeps(s, c, amount);
    case Withdraw(_, amount) => WithdrawKeeps(s, c, amount);
    case ActBuyRex(_, amount, voted) => BuyRexKeeps(s, c, amount, voted);
    case ActUnstakeToRex(_, receiver, net, cpu, voted) => UnstakeToRexKeeps(s, c, receiver, net, cpu, voted);
    case ActSellRex(_, rex) => SellRexKeeps(s, c, rex);
    case ActCancelOrder(owner) => CancelOrderKeeps(s, c, owner);
    case ActRent(kind, _, receiver, payment, fund) => RentKeeps(s, c, kind, receiver, payment, fund);
    case ActFundLoan(kind, _, loan, payment) => FundLoanKeeps(s, c, kind, loan, payment);
    case ActDefundLoan(kind, _, loan, amount) => DefundLoanKeeps(s, c, kind, loan, amount);
    case ActUpdateRex(_) => UpdateRexKeeps(s, c);
    case ActSetRex(_, rent) => SetRexKeeps(s, c, rent);
    case ActRexExec(_, max) => RunRexKeeps(s, c, max);
    case ActConsolidate(_) => ConsolidateRexKeeps(s, c);
    case ActMvToSavings(_, rex) => MvToSavingsKeeps(s, c, rex);
    case ActMvFromSavings(_, rex) => MvFromSavingsKeeps(s, c, rex);
    case ActCloseRex(_) => CloseRexKeeps(s, c);
    case ActRefund(owner) => ClaimRefundKeeps(s, c, owner);
    case ActVote(_) => UpdateRexStakeKeeps(s, c);
    case ActRegister(owner) => RegisterKeeps(s, c, owner);
    case ActRam(owner, bytes) => SetRamKeeps(s, c, owner, bytes);
    case ActFee(owner, amount) => ChannelToRexKeeps(s, c, owner, amount);
    case ActNamebid(_, bid) => AddNamebidKeeps(s, c, bid);
    case ActTransfer(owner, to, amount) => PayKeeps(s, c, owner, to, amount);
    case ActTime(_, now) => AdvanceKeeps(s, c, now);
  }

  lemma StakeStepKeeps(s: State, c: Context, a: Action)
    requires Sound(s, c) && Clear(c) && Outside(a) && c.voter == Voter(a)
    requires a.ActDelegateBw? || a.ActUndelegateBw?
    ensures Keeps(Step(s, a), c)
  {
    hide Sound, ChangeBw;
    match a
    case ActDelegateBw(owner, receiver, net, cpu, transfer) => ChangeBwKeeps(s, c, owner, receiver, net, cpu, transfer);
    case ActUndelegateBw(owner, receiver, net, cpu, _) => ChangeBwKeeps(s, c, owner, receiver, -net, -cpu, false);
  }

  /** No action ever trips over the books, and each leaves them sound. */
  lemma StepKeeps(s: State, c: Context, a: Action)
    requires Sound(s, c) && Clear(c) && Outside(a)
    ensures Keeps(Step(s, a), c)
  {
    hide Sound, Step;
    var d := c.(voter := Voter(a));
    AnyVoter(s, c, Voter(a));
    if a.ActDelegateBw? || a.ActUndelegateBw? {
      StakeStepKeeps(s, d, a);
    } else {
      RexStepKeeps(s, d, a);
    }
    if Step(s, a).Ok? {
      AnyVoter(Step(s, a).value, d, c.voter);
    }
  }

  /** With nothing pending, soundness does not depend on where the pool came from. */
  lemma SoundIsSteady(s: State, c: Context)
    requires Sound(s, c) && Clear(c)
    ensures Steady(s) && Later(c.pool, c.epoch, s.pool, s.log.epoch)
  {
    hide Solvent, HoldingsOk, OrdersOk, Covered, FundsOk, DelegationsOk, Agree, StakeBacked, Tracked, NoEarlySale,
         CreditedOnce, NoDust, PoolOk, Later;
    LaterSelf(s.pool, s.loans, s.log.epoch);
    var d := c.(pool := s.pool, epoch := s.log.epoch);
    assert Sound(s, d);
    AnyVoter(s, d, 0);
  }

  /** A step from a steady state leads to a steady state, or is refused for the caller's reasons. */
  lemma StepIsSteady(s: State, a: Action)
    requires Steady(s) && Outside(a)
    ensures var r := Step(s, a); if r.Ok? then Steady(r.value) else r.error == Rejected
  {
    hide Step, Sound, Outside;
    StepKeeps(s, Idle(s, 0), a);
    if Step(s, a).Ok? {
      SoundIsSteady(Step(s, a).value, Idle(s, 0));
    }
  }

  /** The accounts of the contract itself start out empty. */
  predicate Fresh(tokens: Tokens, now: int) {
    At(tokens, REX_ACCOUNT) == 0 && At(tokens, STAKE_ACCOUNT) == 0 && ClockOk(now)
  }

  lemma GenesisIsSteady(tokens: Tokens, now: int)
    requires Fresh(tokens, now)
    ensures Steady(Genesis(tokens, now))
  {
    hide PoolOk, Agree, Tracked, NoEarlySale, Maturity, Owed, StakeBacked;
    var g := Genesis(tokens, now);
    NothingOwed(g);
    NothingTracked(g);
    NothingSold(g.balances, g.log.purchases, g.log.sales, now);
  }

  lemma NothingOwed(g: State)
    requires g == Genesis(g.tokens, g.now) && Fresh(g.tokens, g.now)
    ensures PoolOk(g.pool, g.loans) && StakeBacked(g.tokens, g.delegated, g.refunds)
    ensures Owed(g.pool, g.funds, g.loans, g.orders) == 0
  {
    hide ClockOk;
  }

  lemma NothingTracked(g: State)
    requires g == Genesis(g.tokens, g.now)
    ensures Agree(g.resources, g.delegated, g.loans)
    ensures Tracked(g.staked, g.delegated, g.balances, g.orders, g.log.drift, 0, 0)
  {
  }

  lemma NothingSold(balances: map<Name, Balance>, purchases: seq<Purchase>, sales: seq<Sale>, now: int)
    requires balances == map[] && purchases == [] && sales == []
    ensures NoEarlySale(balances, purchases, sales, now)
  {
    hide Maturity;
  }

  lemma {:induction false} RunKeeps(s: State, c: Context, actions: seq<Action>)
    requires Sound(s, c) && Clear(c) && forall i :: 0 <= i < |actions| ==> Outside(actions[i])
    ensures Sound(Run(s, actions), c)
    decreases |actions|
  {
    hide Sound, Step, Outside;
    if actions != [] {
      var n := |actions| - 1;
      RunKeeps(s, c, actions[..n]);
      StepKeeps(Run(s, actions[..n]), c, actions[n]);
    }
  }
}
