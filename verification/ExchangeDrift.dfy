/** By exactly how much each action lets an account's voting stake drift from what it holds. */
module ExchangeDrift {
  import opened Basics
  import opened Ledger
  import opened RexPool
  import opened RexBalance
  import opened Exchange
  import opened ExchangeBooks
  import opened ExchangeParts
  import opened ExchangeLoans
  import opened ExchangeShares
  import opened ExchangeOrders
  import opened ExchangeStaking
  import opened ExchangeRuns
  import opened ExchangeHistory

  /** What is unstaked into REX already held, less what the holding comes to count for above what it did. */
  function UnstakingDrift(s: State, owner: Name, payment: int): int {
    match Buy(s.pool, payment)
    case Ok((q, received)) =>
      if owner in s.balances && q.rex != 0
      then payment - (Worth(q, s.balances[owner].rex + received) - s.balances[owner].voteStake)
      else 0
    case Err(_) => 0
  }

  /** What a row without REX still counts for. */
  function ClosingDrift(s: State, owner: Name): int {
    if owner in s.balances && s.balances[owner].rex == 0 then s.balances[owner].voteStake else 0
  }

  /** What an action adds to an account's drift, from the tables before it. */
  function DriftChange(s: State, a: Action, x: Name): int {
    if a.owner != x then 0
    else if a.ActUnstakeToRex? then UnstakingDrift(s, x, a.net + a.cpu)
    else if a.ActCloseRex? then ClosingDrift(s, x)
    else 0
  }

  predicate Drifted(s: State, r: Result<State>, x: Name, amount: int) {
    r.Ok? ==> At(r.value.log.drift, x) == At(s.log.drift, x) + amount
  }

  // ---------------------------------------------------------------------------------------------
  // Maintenance changes a row only by selling from it, and a row sold out counts for nothing.

  predicate RowKept(b: Balance, c: Balance) {
    c == b || (0 < b.rex && (c.rex == 0 ==> c.voteStake == 0))
  }

  predicate RowKeptAt(before: map<Name, Balance>, after: map<Name, Balance>, x: Name) {
    (x in after <==> x in before) && (x in before ==> RowKept(before[x], after[x]))
  }

  lemma RowsKeptOn(a: map<Name, Balance>, b: map<Name, Balance>, c: map<Name, Balance>, x: Name)
    requires RowKeptAt(a, b, x) && RowKeptAt(b, c, x)
    ensures RowKeptAt(a, c, x)
  {
  }

  lemma FillOrderRow(s: State, c: Context, owner: Name, rex: int, x: Name)
    requires Sound(s, c) && CanSell(s, owner, rex)
    ensures FillOrder(s, owner, rex).Ok? && RowKeptAt(s.balances, FillOrder(s, owner, rex).value.0.balances, x)
  {
    hide Sound, Worth, Fill;
    FillPool(s, c, owner, rex);
  }

  lemma FillQueuedRow(s: State, c: Context, owner: Name, x: Name)
    requires Sound(s, c) && !c.selling && owner in s.orders && s.orders[owner].open
    ensures FillQueued(s, owner).Ok? && RowKeptAt(s.balances, FillQueued(s, owner).value.balances, x)
  {
    hide Sound, FillOrder, RowKeptAt;
    OpenOrderCanSell(s, c, owner);
    FillOrderRow(s, c, owner, s.orders[owner].requested, x);
  }

  lemma {:induction false} FillOrdersRow(s: State, c: Context, queue: seq<Name>, max: nat, x: Name)
    requires Sound(s, c) && !c.selling && c.filled == []
    ensures FillOrders(s, queue, max).Ok? && RowKeptAt(s.balances, FillOrders(s, queue, max).value.balances, x)
    decreases max
  {
    hide Sound, FillQueued, RowKept;
    if max > 0 && queue != [] && queue[0] in s.orders && s.orders[queue[0]].open {
      FillQueuedKeeps(s, c, queue[0]);
      FillQueuedRow(s, c, queue[0], x);
      var t := FillQueued(s, queue[0]).value;
      FillOrdersRow(t, c, queue[1..], max - 1, x);
      RowsKeptOn(s.balances, t.balances, FillOrders(s, queue, max).value.balances, x);
    } else {
      SameRow(s.balances, x);
    }
  }

  lemma SameRow(balances: map<Name, Balance>, x: Name)
    ensures RowKeptAt(balances, balances, x)
  {
  }

  lemma ProcessLoanRows(s: State, kind: Kind, n: nat)
    requires n in s.loans.Of(kind)
    ensures var r := ProcessLoan(s, kind, n); r.Ok? ==> r.value.balances == s.balances
  {
    hide RemoveLoan, BancorOutput, LoansAvailable, Renew, CloseLoan;
    if s.pool.Some? {
      var q := RemoveLoan(s.pool.value, s.loans.Of(kind)[n].staked);
      if q.Ok? {
        var rented := BancorOutput(q.value.rent, q.value.unlent, s.loans.Of(kind)[n].payment);
        if rented.Ok? {
          RenewRows(s, kind, n, q.value, rented.value);
        }
        CloseRows(s, kind, n, q.value);
      }
    }
  }

  lemma RenewRows(s: State, kind: Kind, n: nat, q: Pool, rented: int)
    requires n in s.loans.Of(kind)
    ensures var r := Renew(s, kind, n, q, rented); r.Ok? ==> r.value.balances == s.balances
  {
    hide LimitsOf, AddLoan;
    var loan := s.loans.Of(kind)[n];
    var renewed := loan.(staked := rented, expiration := loan.expiration + LOAN_TERM, balance := loan.balance - loan.payment);
    var t := s.(pool := Some(AddLoan(q, loan.payment, rented, false)),
                loans := s.loans.With(kind, s.loans.Of(kind)[n := renewed]));
    LimitsFrame(Record(t, loan.from, ForRenewal, loan.payment), kind, loan.receiver, rented - loan.staked);
  }

  lemma CloseRows(s: State, kind: Kind, n: nat, q: Pool)
    requires n in s.loans.Of(kind)
    ensures var r := CloseLoan(s, kind, n, q); r.Ok? ==> r.value.balances == s.balances
  {
    hide LimitsOf, Credit;
    var loan := s.loans.Of(kind)[n];
    var t := s.(pool := Some(q), loans := s.loans.With(kind, s.loans.Of(kind) - {n}));
    CreditFrame(t, loan.from, loan.balance, []);
    var u := Credit(t, loan.from, loan.balance, []);
    if u.Ok? {
      LimitsFrame(u.value, kind, loan.receiver, -loan.staked);
    }
  }

  lemma {:induction false} ProcessLoansRows(s: State, kind: Kind, max: nat)
    ensures var r := ProcessLoans(s, kind, max); r.Ok? ==> r.value.balances == s.balances
    decreases max
  {
    hide ProcessLoan, Expired;
    var expired := Expired(s.loans.Of(kind), s.now);
    if max > 0 && expired.Some? {
      ProcessLoanRows(s, kind, expired.value);
      var t := ProcessLoan(s, kind, expired.value);
      if t.Ok? {
        ProcessLoansRows(t.value, kind, max - 1);
      }
    }
  }

  lemma ChannelNamebidsRows(s: State)
    ensures var r := ChannelNamebids(s); r.Ok? ==> r.value.balances == s.balances
  {
    hide Pay, Channel;
    if s.pool.Some? && RexAvailable(s) {
      var amount := s.pool.value.namebid;
      PayFrame(s.(pool := Some(Channel(s.pool.value, amount))), NAMES_ACCOUNT, REX_ACCOUNT, amount, Rejected);
    }
  }

  lemma RunRexRow(s: State, c: Context, max: nat, x: Name)
    requires Sound(s, c) && !c.selling && c.filled == []
    ensures var r := RunRex(s, max); r.Ok? ==> RowKeptAt(s.balances, r.value.balances, x)
  {
    hide Sound, ChannelNamebids, ProcessLoans, FillOrders, Queue, RowKeptAt;
    ChannelNamebidsKeeps(s, c);
    ChannelNamebidsRows(s);
    var r1 := ChannelNamebids(s);
    if r1.Ok? {
      ProcessLoansKeep(r1.value, c, Cpu, max);
      ProcessLoansRows(r1.value, Cpu, max);
      var r2 := ProcessLoans(r1.value, Cpu, max);
      if r2.Ok? {
        ProcessLoansKeep(r2.value, c, Net, max);
        ProcessLoansRows(r2.value, Net, max);
        var r3 := ProcessLoans(r2.value, Net, max);
        if r3.Ok? {
          FillOrdersRow(r3.value, c, Queue(r3.value.orders), max, x);
        }
      }
    }
  }

  // ---------------------------------------------------------------------------------------------
  // The two actions that let stakes drift.

  lemma BuyInDrift(s: State, owner: Name, payment: int)
    ensures var r := BuyIn(s, owner, payment);
            r.Ok? ==> r.value.0.log.drift == s.log.drift && payment - r.value.1 == UnstakingDrift(s, owner, payment)
  {
    hide Buy, Worth, AddPurchase, Maturity;
  }

  lemma AddDriftAt(s: State, owner: Name, amount: int, x: Name)
    ensures At(AddDrift(s, owner, amount).log.drift, x) == At(s.log.drift, x) + (if x == owner then amount else 0)
  {
  }

  lemma UnstakeToRexDrift(s: State, owner: Name, receiver: Name, net: int, cpu: int, voted: bool, x: Name)
    ensures Drifted(s, UnstakeToRex(s, owner, receiver, net, cpu, voted), x,
                    if x == owner then UnstakingDrift(s, owner, net + cpu) else 0)
  {
    hide TakeDelegated, BuyIn, RunRex, UpdateAccount, AddDrift, UnstakingDrift;
    TakeDelegatedFrame(s, owner, receiver, net, cpu);
    var r1 := TakeDelegated(s, owner, receiver, net, cpu);
    if r1.Ok? {
      BuyInDrift(r1.value, owner, net + cpu);
      SameDrift(s, r1.value, owner, net + cpu);
      var r2 := BuyIn(r1.value, owner, net + cpu);
      if r2.Ok? {
        var t := AddDrift(r2.value.0, owner, net + cpu - r2.value.1);
        AddDriftAt(r2.value.0, owner, net + cpu - r2.value.1, x);
        RunRexQuiet(t, 2);
        var r3 := RunRex(t, 2);
        if r3.Ok? {
          UpdateAccountQuiet(r3.value, owner, 0, 0, true);
        }
      }
    }
  }

  lemma SameDrift(s: State, t: State, owner: Name, payment: int)
    requires t.pool == s.pool && t.balances == s.balances
    ensures UnstakingDrift(t, owner, payment) == UnstakingDrift(s, owner, payment)
  {
    hide Buy, Worth;
  }

  lemma DropBalanceDrift(s: State, owner: Name, x: Name)
    ensures var r := DropBalance(s, owner);
            r.Ok? ==> At(r.value.log.drift, x) == At(s.log.drift, x) + (if x == owner then ClosingDrift(s, owner) else 0)
                      && (owner in s.balances ==> s.balances[owner].rex == 0)
  {
    hide AddDrift;
    if owner in s.balances {
      AddDriftAt(s.(balances := s.balances - {owner}), owner, s.balances[owner].voteStake, x);
    }
  }

  lemma CloseRexDrift(s: State, c: Context, x: Name)
    requires Sound(s, c) && Clear(c)
    ensures Drifted(s, CloseRex(s, c.voter), x, if x == c.voter then ClosingDrift(s, c.voter) else 0)
  {
    hide Sound, RunRex, UpdateAccount, DropFund, DropBalance;
    var owner := c.voter;
    RunRexRow(s, c, 2, owner);
    SameRow(s.balances, owner);
    RunRexQuiet(s, 2);
    var r1 := if s.pool.Some? then RunRex(s, 2) else Ok(s);
    if r1.Ok? {
      UpdateAccountQuiet(r1.value, owner, 0, 0, false);
      UpdateAccountFrame(r1.value, owner, 0, 0, false);
      var r2 := UpdateAccount(r1.value, owner, 0, 0, false);
      if r2.Ok? {
        DropFundFrame(r2.value, owner);
        DropBalanceDrift(DropFund(r2.value, owner), owner, x);
      }
    }
  }

  lemma BuyRexDrift(s: State, owner: Name, amount: int, voted: bool, x: Name)
    ensures Drifted(s, BuyRex(s, owner, amount, voted), x, 0)
  {
    hide BuyRex;
    BuyRexHistory(s, owner, amount, voted);
  }

  lemma QuietDrift(s: State, r: Result<State>, x: Name)
    requires KeepsStill(s, r)
    ensures Drifted(s, r, x, 0)
  {
  }

  /** An action changes an account's drift by exactly the amount said, whatever else it does. */
  lemma StepDrifts(s: State, a: Action, x: Name)
    requires Steady(s) && Outside(a)
    ensures Drifted(s, Step(s, a), x, DriftChange(s, a, x))
  {
    hide Sound, UnstakingDrift, ClosingDrift, Drifted, KeepsStill, Quietly, BuyRex, UnstakeToRex, CloseRex, SellRex, Rent, FundLoan,
         DefundLoan, UpdateRex, RunRex, ConsolidateRex, MvToSavings, MvFromSavings, ChangeBw, Pay, ChannelToRex, UpdateRexStake,
         ClaimRefund, DepositTo, WithdrawFrom, CancelOrder, SetRex, Register, SetRam, AddNamebid, Advance, DelegateBw,
         UndelegateBw;
    match a
    case ActBuyRex(owner, amount, voted) => BuyRexDrift(s, owner, amount, voted, x);
    case ActUnstakeToRex(owner, receiver, net, cpu, voted) => UnstakeToRexDrift(s, owner, receiver, net, cpu, voted, x);
    case ActCloseRex(owner) =>
      AnyVoter(s, Idle(s, 0), owner);
      CloseRexDrift(s, Idle(s, owner), x);
    case _ =>
      OtherStepsQuiet(s, a);
      QuietDrift(s, Step(s, a), x);
  }

  /** The changes a run makes, action by action, aborted ones making none. */
  function DriftOver(s: State, actions: seq<Action>, x: Name): int
    decreases |actions|
  {
    if actions == [] then 0
    else
      var before, last := actions[..|actions| - 1], actions[|actions| - 1];
      DriftOver(s, before, x) + (if Step(Run(s, before), last).Ok? then DriftChange(Run(s, before), last, x) else 0)
  }

  lemma {:induction false} RunDrifts(s: State, actions: seq<Action>, x: Name)
    requires Steady(s) && forall i :: 0 <= i < |actions| ==> Outside(actions[i])
    ensures Steady(Run(s, actions)) && At(Run(s, actions).log.drift, x) == At(s.log.drift, x) + DriftOver(s, actions, x)
    decreases |actions|
  {
    hide Sound, Step, Outside, DriftChange;
    if actions != [] {
      var n := |actions| - 1;
      RunDrifts(s, actions[..n], x);
      StepIsSteady(Run(s, actions[..n]), actions[n]);
      StepDrifts(Run(s, actions[..n]), actions[n], x);
    }
  }

  /** Whether an action unstakes into REX the account holds already, or closes a row that still counts for something. */
  predicate MayDrift(s: State, a: Action, x: Name) {
    && a.owner == x && x in s.balances
    && (a.ActUnstakeToRex? || (a.ActCloseRex? && s.balances[x].rex == 0 && s.balances[x].voteStake != 0))
  }

  /** An account that does neither keeps its voting stake in step with what it holds. */
  lemma {:induction false} NoDriftOver(s: State, actions: seq<Action>, x: Name)
    requires forall i :: 0 <= i < |actions| ==> !MayDrift(Run(s, actions[..i]), actions[i], x)
    ensures DriftOver(s, actions, x) == 0
    decreases |actions|
  {
    hide Step, Run;
    if actions != [] {
      var n := |actions| - 1;
      forall i | 0 <= i < n
        ensures !MayDrift(Run(s, actions[..n][..i]), actions[..n][i], x)
      {
        assert actions[..n][..i] == actions[..i];
      }
      NoDriftOver(s, actions[..n], x);
      assert !MayDrift(Run(s, actions[..n]), actions[n], x);
      NoDriftThen(Run(s, actions[..n]), actions[n], x);
    }
  }

  lemma NoDriftThen(s: State, a: Action, x: Name)
    requires !MayDrift(s, a, x)
    ensures DriftChange(s, a, x) == 0
  {
    hide Buy, Worth;
  }
}
