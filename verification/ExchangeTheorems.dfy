/**
 What holds of the exchange in every state that any run of actions from a fresh chain can reach,
 provided only that the contract's own accounts sign nothing.
 */
module ExchangeTheorems {
  import opened Basics
  import opened Ledger
  import opened RexPool
  import opened RexBalance
  import opened Exchange
  import opened ExchangeBooks
  import opened ExchangeParts
  import opened ExchangeLoans
  import opened ExchangeShares
  import opened ExchangeOrders
  import opened ExchangeStaking
  import opened ExchangeRuns
  import opened ExchangeHistory
  import opened ExchangeAccounts
  import opened ExchangeDrift
  import opened Sums

  predicate AllOutside(actions: seq<Action>) {
    forall i :: 0 <= i < |actions| ==> Outside(actions[i])
  }

  ghost predicate Reached(s: State) {
    exists tokens: Tokens, now: int, actions: seq<Action> ::
      Fresh(tokens, now) && AllOutside(actions) && s == Run(Genesis(tokens, now), actions)
  }

  lemma ReachedIsSteady(s: State)
    requires Reached(s)
    ensures Steady(s)
  {
    hide Sound, Run, Genesis, Fresh;
    var tokens: Tokens, now: int, actions: seq<Action> :|
      Fresh(tokens, now) && AllOutside(actions) && s == Run(Genesis(tokens, now), actions);
    GenesisIsSteady(tokens, now);
    RunKeeps(Genesis(tokens, now), Idle(Genesis(tokens, now), 0), actions);
    SoundIsSteady(s, Idle(Genesis(tokens, now), 0));
  }

  /** None of the checks that guard the contract's own bookkeeping can ever fail, nor any lookup or division. */
  lemma NeverBroken(s: State, a: Action)
    requires Reached(s) && Outside(a)
    ensures Step(s, a) != Err(Broken) && Step(s, a) != Err(Endless)
  {
    hide Sound, Step;
    ReachedIsSteady(s);
    StepKeeps(s, Idle(s, 0), a);
  }

  /** The exchange's account holds what the exchange owes, to the last unit. */
  lemma SolventAlways(s: State)
    requires Reached(s)
    ensures At(s.tokens, REX_ACCOUNT)
            == Lendable(s.pool) + Sum(s.funds, AmountOf) + Sum(s.loans.cpu, LoanFundOf) + Sum(s.loans.net, LoanFundOf)
               + Sum(s.orders, ProceedsOf)
    ensures forall a :: a in s.funds ==> 0 <= s.funds[a]
    ensures forall a :: a in s.orders && !s.orders[a].open ==> 0 <= s.orders[a].proceeds
  {
    hide Sum, Run;
    ReachedIsSteady(s);
    SteadyMoney(s);
  }

  lemma SteadyMoney(s: State)
    requires Steady(s)
    ensures At(s.tokens, REX_ACCOUNT) == Owed(s.pool, s.funds, s.loans, s.orders)
    ensures FundsOk(s.funds)
    ensures forall a :: a in s.orders && !s.orders[a].open ==> 0 <= s.orders[a].proceeds
  {
    hide PoolOk, Later, HoldingsOk, Covered, DelegationsOk, Agree, StakeBacked, Tracked, NoEarlySale, CreditedOnce, NoDust,
         Owed;
    assert forall a :: a in s.orders ==> OrderOk(s.orders[a], s.now);
  }

  /** The pool's totals are those of its loans, never negative, and it is empty of all when empty of shares. */
  lemma PoolAlwaysSafe(s: State)
    requires Reached(s) && s.pool.Some?
    ensures var p := s.pool.value;
            && p.lendable == p.unlent + p.lent
            && p.lent == Sum(s.loans.cpu, StakedOf) + Sum(s.loans.net, StakedOf)
            && 0 <= p.unlent && 0 <= p.lent && 0 <= p.rent
            && 0 <= p.rex <= REX_RATIO * p.lendable
            && (p.rex > 0 <==> p.lendable > 0)
            && (p.rex == 0 ==> p.lent == 0 && p.unlent == 0 && s.loans.cpu == map[] && s.loans.net == map[])
  {
    hide Sum, Run;
    ReachedIsSteady(s);
    SteadyPool(s);
    if s.pool.value.rex == 0 {
      NoLoansInEmptyPool(s.pool.value, s.loans);
    }
  }

  lemma SteadyPool(s: State)
    requires Steady(s)
    ensures PoolOk(s.pool, s.loans)
  {
  }

  lemma NoLoansInEmptyPool(p: Pool, l: Loans)
    requires PoolOk(Some(p), l) && p.rex == 0
    ensures p.lent == 0 && p.unlent == 0 && l.cpu == map[] && l.net == map[]
  {
    hide Lent;
    LentIfAny(l, Cpu, p.loanNum);
    LentIfAny(l, Net, p.loanNum);
  }

  lemma LentIfAny(l: Loans, kind: Kind, loanNum: nat)
    requires LoansOk(l.cpu, loanNum) && LoansOk(l.net, loanNum)
    ensures l.Of(kind) != map[] ==> 0 < Lent(l)
  {
    hide Lent;
    if l.Of(kind) != map[] {
      var n :| n in l.Of(kind);
      StakedWithinLent(l, kind, n, loanNum);
    }
  }

  /** Until the pool is emptied and filled anew, a share is never worth less than it was. */
  lemma PriceNeverFalls(s: State, actions: seq<Action>)
    requires Reached(s) && AllOutside(actions) && s.pool.Some?
    requires Run(s, actions).log.epoch == s.log.epoch
    ensures var t := Run(s, actions);
            && t.pool.Some?
            && t.pool.value.lendable * s.pool.value.rex >= s.pool.value.lendable * t.pool.value.rex
  {
    hide Sound, Run, Outside;
    ReachedIsSteady(s);
    RunKeeps(s, Idle(s, 0), actions);
    SoundIsSteady(Run(s, actions), Idle(s, 0));
  }

  /** That happens only to a pool without shares. */
  lemma EpochEndsOnlyEmpty(s: State, a: Action)
    requires Reached(s) && Outside(a) && Step(s, a).Ok? && RexAvailable(s)
    ensures Step(s, a).value.log.epoch == s.log.epoch
  {
    hide Sound, Step;
    ReachedIsSteady(s);
    RefilledOnlyWhenEmpty(s, a);
  }

  /** All shares are held; each account's are soundly partitioned, and cover what it has on order. */
  lemma SharesAlwaysPartitioned(s: State)
    requires Reached(s)
    ensures Sum(s.balances, RexOf) == RexIn(s.pool)
    ensures forall a :: a in s.balances ==> Partitioned(s.balances[a], Sec(s.now)) && |s.balances[a].buckets| <= 6
    ensures forall a :: a in s.orders ==> a in s.balances
    ensures forall a :: a in s.orders && s.orders[a].open ==> 0 < s.orders[a].requested <= s.balances[a].matured
  {
    hide Sum, Run, Partitioned;
    ReachedIsSteady(s);
    SteadyShares(s);
    forall a | a in s.balances
      ensures |s.balances[a].buckets| <= 6
    {
      AtMostSixBuckets(s.balances[a], Sec(s.now));
    }
  }

  lemma SteadyShares(s: State)
    requires Steady(s)
    ensures HoldingsOk(RexIn(s.pool), s.balances, s.now)
    ensures forall a :: a in s.orders ==> a in s.balances && OrderOk(s.orders[a], s.now)
    ensures forall a :: a in s.orders && s.orders[a].open ==> s.orders[a].requested <= s.balances[a].matured
  {
    hide PoolOk, Later, HoldingsOk, Solvent, DelegationsOk, Agree, StakeBacked, Tracked, NoEarlySale, CreditedOnce, NoDust;
    forall a | a in s.orders && s.orders[a].open
      ensures s.orders[a].requested <= s.balances[a].matured
    {
      assert s.orders[a].requested <= HoldingOf(s.balances, a).matured;
    }
  }

  /**
   No early sale: at any time, what an account has sold so far and could sell now is at most what it
   bought with a maturity that has come, whatever it moved between buckets in the meantime.
   */
  lemma NeverSoldEarly(s: State, owner: Name)
    requires Reached(s)
    ensures SoldBy(s.log.sales, owner) + HoldingOf(s.balances, owner).matured
            <= BoughtBy(s.log.purchases, owner, Sec(s.now))
    ensures SoldBy(s.log.sales, owner) + HoldingOf(s.balances, owner).rex
            == BoughtBy(s.log.purchases, owner, END_OF_DAYS)
  {
    hide Run, SoldBy, BoughtBy;
    ReachedIsSteady(s);
    SteadyOnTime(s, owner);
    var b, sec := HoldingOf(s.balances, owner), Sec(s.now);
    Parts(b, sec, sec);
    assert Sellable(b, sec) >= b.matured;
  }

  lemma SteadyOnTime(s: State, owner: Name)
    requires Steady(s)
    ensures OnTime(HoldingOf(s.balances, owner), owner, s.log.purchases, s.log.sales, Sec(s.now))
    ensures Partitioned(HoldingOf(s.balances, owner), Sec(s.now)) && Sec(s.now) < END_OF_DAYS
  {
    hide PoolOk, Later, Solvent, OrdersOk, Covered, FundsOk, DelegationsOk, Agree, StakeBacked, Tracked, CreditedOnce, NoDust,
         OnTime, Dated, Partitioned;
    DatedNow(s, Idle(s, 0));
    HoldingPartitioned(RexIn(s.pool), s.balances, s.now, owner);
  }

  /** Each receiver's bandwidth is what is delegated to it and what is rented for it. */
  lemma BandwidthAlwaysAgrees(s: State, r: Name)
    requires Reached(s)
    ensures Limit(s.resources, Net, r) == Sum(s.delegated, To(Net, r)) + Sum(s.loans.net, StakedTo(r))
    ensures Limit(s.resources, Cpu, r) == Sum(s.delegated, To(Cpu, r)) + Sum(s.loans.cpu, StakedTo(r))
  {
    hide Run, Sum, To, StakedTo;
    ReachedIsSteady(s);
    SteadyBandwidth(s, Net, r);
    SteadyBandwidth(s, Cpu, r);
  }

  lemma SteadyBandwidth(s: State, kind: Kind, r: Name)
    requires Steady(s)
    ensures AgreeAt(s.resources, s.delegated, s.loans, kind, r)
  {
    hide PoolOk, Later, Solvent, HoldingsOk, OrdersOk, Covered, FundsOk, DelegationsOk, StakeBacked, Tracked, NoEarlySale,
         CreditedOnce, NoDust, AgreeAt;
  }

  /** The staking account holds the tokens delegated and those waiting for refund. */
  lemma StakeAlwaysConserved(s: State)
    requires Reached(s)
    ensures At(s.tokens, STAKE_ACCOUNT) == Sum(s.delegated, BothOf) + Sum(s.refunds, RefundOf)
    ensures forall a :: a in s.refunds ==> 0 <= s.refunds[a].net && 0 <= s.refunds[a].cpu
    ensures forall k :: k in s.delegated ==> 0 <= s.delegated[k].net && 0 <= s.delegated[k].cpu
  {
    hide Run, Sum;
    ReachedIsSteady(s);
    SteadyStake(s);
  }

  lemma SteadyStake(s: State)
    requires Steady(s)
    ensures StakeBacked(s.tokens, s.delegated, s.refunds) && DelegationsOk(s.delegated)
  {
  }

  /** An account's voting stake is what it delegates and what its REX counts for, less what is held back, plus drift. */
  lemma VotingStakeTracks(s: State, a: Name)
    requires Reached(s)
    ensures At(s.staked, a)
            == Sum(s.delegated, From(a)) + StakeOf(s.balances, a) - HeldBack(s.orders, a) + At(s.log.drift, a)
  {
    hide Run, Sum, From;
    ReachedIsSteady(s);
    SteadyVotes(s, a);
  }

  /** What an account's REX counts for once it is revalued. */
  function Revalued(s: State, a: Name): int {
    if a !in s.balances then 0 else if RexAvailable(s) then Worth(s.pool.value, s.balances[a].rex) else s.balances[a].voteStake
  }

  /**
   A vote revalues an account's REX without checking what its stake becomes: it becomes negative exactly
   when drift, less what is held back, outweighs what the account delegates and what its REX is worth; in
   terms of the tables alone, when the stake and that worth together are less than the stored `vote_stake`.
   */
  lemma VotingStakeNegativeIff(s: State, a: Name)
    requires Reached(s)
    ensures var t := UpdateRexStake(s, a);
            && Step(s, ActVote(a)) == Ok(t)
            && At(t.staked, a) == Sum(s.delegated, From(a)) + Revalued(s, a) - HeldBack(s.orders, a) + At(s.log.drift, a)
            && (At(t.staked, a) < 0
                <==> Sum(s.delegated, From(a)) + Revalued(s, a) < HeldBack(s.orders, a) - At(s.log.drift, a))
            && (At(t.staked, a) < 0 <==> a in s.staked && s.staked[a] + Revalued(s, a) < StakeOf(s.balances, a))
  {
    hide Run, Step, Sum, From, Sound, Revalued, UpdateRexStake;
    ReachedIsSteady(s);
    AnyVoter(s, Idle(s, 0), a);
    UpdateRexStakeKeeps(s, Idle(s, a));
    var balances, staked := RevaluedRow(s, a);
    VoteIs(s, a);
    SoundVotes(UpdateRexStake(s, a), Idle(s, a));
  }

  lemma SoundVotes(s: State, c: Context)
    requires Sound(s, c) && c.stake == 0
    ensures TrackedAt(s.staked, s.delegated, s.balances, s.orders, s.log.drift, c.voter, 0, c.voter)
  {
    hide PoolOk, Later, Solvent, HoldingsOk, OrdersOk, Covered, FundsOk, DelegationsOk, StakeBacked, Agree, NoEarlySale,
         CreditedOnce, NoDust, TrackedAt;
  }

  lemma VoteIs(s: State, a: Name)
    ensures Step(s, ActVote(a)) == Ok(UpdateRexStake(s, a))
  {
    hide UpdateRexStake;
  }

  lemma RevaluedRow(s: State, a: Name) returns (rows: map<Name, Balance>, stakes: map<Name, int>)
    ensures UpdateRexStake(s, a) == s.(balances := rows, staked := stakes)
    ensures StakeOf(rows, a) == Revalued(s, a)
    ensures At(stakes, a) == At(s.staked, a) + (if a in s.staked then Revalued(s, a) - StakeOf(s.balances, a) else 0)
    ensures a !in s.staked ==> a !in stakes
  {
    hide Worth;
    rows, stakes := s.balances, s.staked;
    if a in s.balances && RexAvailable(s) {
      var stake := Worth(s.pool.value, s.balances[a].rex);
      rows := s.balances[a := s.balances[a].(voteStake := stake)];
      if stake != s.balances[a].voteStake && a in s.staked {
        stakes := s.staked[a := s.staked[a] + stake - s.balances[a].voteStake];
      }
    }
  }

  lemma SteadyVotes(s: State, a: Name)
    requires Steady(s)
    ensures TrackedAt(s.staked, s.delegated, s.balances, s.orders, s.log.drift, 0, 0, a)
  {
    hide PoolOk, Later, Solvent, HoldingsOk, OrdersOk, Covered, FundsOk, DelegationsOk, StakeBacked, Agree, NoEarlySale,
         CreditedOnce, NoDust, TrackedAt;
  }

  /**
   Drift arises by unstaking into REX already held, by what is paid less what the holding comes to count
   for above what it did, and by closing a row without REX, by what it still counts for; and by nothing
   else. A row without REX that still counts for something is one whose first purchase bought nothing.
   */
  lemma DriftOnlyByUnstaking(s: State, a: Action, x: Name)
    requires Reached(s) && Outside(a) && Step(s, a).Ok?
    ensures var change := At(Step(s, a).value.log.drift, x) - At(s.log.drift, x);
            && change == DriftChange(s, a, x)
            && (change != 0 <==>
                  && x == a.owner && x in s.balances
                  && ((a.ActUnstakeToRex? && UnstakingDrift(s, x, a.net + a.cpu) != 0)
                      || (a.ActCloseRex? && s.balances[x].rex == 0 && s.balances[x].voteStake != 0)))
            && (change != 0 && a.ActCloseRex? ==> x in s.log.dust)
  {
    hide Sound, Step, UnstakingDrift;
    ReachedIsSteady(s);
    StepDrifts(s, a, x);
    SteadyDust(s);
    NothingUnstaked(s, a, x);
  }

  lemma SteadyDust(s: State)
    requires Steady(s)
    ensures NoDust(s.balances, s.log.dust)
  {
  }

  lemma NothingUnstaked(s: State, a: Action, x: Name)
    ensures a.ActUnstakeToRex? && x !in s.balances ==> UnstakingDrift(s, x, a.net + a.cpu) == 0
  {
    hide Buy, Worth;
  }

  /** The figures an unstaking leaves drift by: the pool and the row before it, and what is unstaked. */
  lemma UnstakingDriftsBy(s: State, x: Name, payment: int)
    requires Reached(s) && x in s.balances && 0 < payment
    ensures var r := Buy(s.pool, payment);
            && r.Ok?
            && var (q, received) := r.value;
            && q.rex > 0
            && UnstakingDrift(s, x, payment)
               == payment - (Worth(q, s.balances[x].rex + received) - s.balances[x].voteStake)
  {
    hide Sound, Worth, Buy, Lent;
    ReachedIsSteady(s);
    SteadyPool(s);
    BuyPool(s.pool, s.loans, payment);
  }

  /** Over a whole run, from a fresh chain, drift is what the run's actions leave. */
  lemma VotingStakeOverRuns(tokens: Tokens, now: int, actions: seq<Action>, x: Name)
    requires Fresh(tokens, now) && AllOutside(actions)
    ensures var s := Run(Genesis(tokens, now), actions);
            At(s.staked, x) == Sum(s.delegated, From(x)) + StakeOf(s.balances, x) - HeldBack(s.orders, x)
                               + DriftOver(Genesis(tokens, now), actions, x)
  {
    hide Sound, Run, Genesis, Fresh, Sum, From, DriftOver;
    var g := Genesis(tokens, now);
    GenesisIsSteady(tokens, now);
    RunDrifts(g, actions, x);
    NoDriftAtFirst(tokens, now);
    SteadyVotes(Run(g, actions), x);
  }

  lemma NoDriftAtFirst(tokens: Tokens, now: int)
    ensures Genesis(tokens, now).log.drift == map[]
  {
  }

  /**
   An account that never unstakes into REX it holds already, nor closes a row that still counts for
   something, always votes with what it delegates and what its REX counts for, less what is held back.
   */
  lemma VotesWithHoldings(tokens: Tokens, now: int, actions: seq<Action>, x: Name)
    requires Fresh(tokens, now) && AllOutside(actions)
    requires forall i :: 0 <= i < |actions| ==> !MayDrift(Run(Genesis(tokens, now), actions[..i]), actions[i], x)
    ensures var s := Run(Genesis(tokens, now), actions);
            At(s.staked, x) == Sum(s.delegated, From(x)) + StakeOf(s.balances, x) - HeldBack(s.orders, x)
  {
    hide Run, Genesis, Fresh, Sum, From, DriftOver, MayDrift;
    VotingStakeOverRuns(tokens, now, actions, x);
    NoDriftOver(Genesis(tokens, now), actions, x);
  }

  /** Loans are to be had exactly when the pool has shares and no sell order waits anywhere. */
  lemma NoLoanWhileOrdersWait(s: State)
    requires Reached(s)
    ensures LoansAvailable(s) <==> RexAvailable(s) && forall a :: a in s.orders ==> !s.orders[a].open
  {
    hide Run, Sound, LoansAvailable;
    ReachedIsSteady(s);
    LoansAvailableIff(s, Idle(s, 0));
  }

  /** While an order waits, an expired loan is closed whatever its terms. */
  lemma NoRenewalWhileOrdersWait(s: State, kind: Kind, n: nat, a: Name)
    requires Steady(s) && n in s.loans.Of(kind) && a in s.orders && s.orders[a].open
    ensures var r := ProcessLoan(s, kind, n); r.Ok? ==> r.value.loans == s.loans.With(kind, s.loans.Of(kind) - {n})
  {
    hide Sound, LoansAvailable, RemoveLoan, BancorOutput, Limits, Renew;
    if s.pool.Some? {
      var q := RemoveLoan(s.pool.value, s.loans.Of(kind)[n].staked);
      if q.Ok? {
        FrontOpenStays(s, q.value, a);
        CloseLoanFrame(s, kind, n, q.value);
      }
    }
  }

  lemma FrontOpenStays(s: State, q: Pool, a: Name)
    requires Steady(s) && a in s.orders && s.orders[a].open
    ensures !LoansAvailable(s.(pool := Some(q)))
  {
    hide PoolOk, Later, Solvent, HoldingsOk, Covered, FundsOk, DelegationsOk, Agree, StakeBacked, Tracked, NoEarlySale,
         CreditedOnce, NoDust, FrontOpen;
    FrontTells(s.orders, s.now);
  }

  lemma CloseLoanFrame(s: State, kind: Kind, n: nat, q: Pool)
    requires n in s.loans.Of(kind)
    ensures var r := CloseLoan(s, kind, n, q); r.Ok? ==> r.value.loans == s.loans.With(kind, s.loans.Of(kind) - {n})
  {
    hide LimitsOf, Credit;
    var loan := s.loans.Of(kind)[n];
    var t := s.(pool := Some(q), loans := s.loans.With(kind, s.loans.Of(kind) - {n}));
    CreditFrame(t, loan.from, loan.balance, []);
    var u := Credit(t, loan.from, loan.balance, []);
    if u.Ok? {
      LimitsFrame(u.value, kind, loan.receiver, -loan.staked);
    }
  }

  /** Every filled order is credited exactly once, with its own proceeds, but for the one not claimed yet. */
  lemma FilledOnceCreditedOnce(s: State, a: Name)
    requires Reached(s)
    ensures Entries(s.log.fills, a)
            == Entries(s.log.credits, a) + (if a in s.orders && !s.orders[a].open then [s.orders[a].proceeds] else [])
  {
    hide Run;
    ReachedIsSteady(s);
    SteadyCredits(s, a);
  }

  /**
   Nothing an account brought in or earned goes to anyone else: its fund, the funds of the loans it
   opened, and the proceeds of its filled order are what it deposited and what its shares were sold for,
   less what it withdrew and what it paid for shares, for loans and for their renewal.
   */
  lemma EveryTokenAccounted(s: State, x: Name)
    requires Reached(s)
    ensures At(s.funds, x) + Sum(s.loans.cpu, FundOf(x)) + Sum(s.loans.net, FundOf(x))
            + (if x in s.orders && !s.orders[x].open then s.orders[x].proceeds else 0)
            == Dealt(s.log.deals, x, PaidIn) + Dealt(s.log.deals, x, FromSale)
               - Dealt(s.log.deals, x, PaidOut) - Dealt(s.log.deals, x, ForShares)
               - Dealt(s.log.deals, x, ForRent) - Dealt(s.log.deals, x, ForRenewal)
  {
    hide Sound, Run, Genesis, Fresh, Sum, FundOf, Dealt;
    var tokens: Tokens, now: int, actions: seq<Action> :|
      Fresh(tokens, now) && AllOutside(actions) && s == Run(Genesis(tokens, now), actions);
    GenesisIsSteady(tokens, now);
    RunShifts(Genesis(tokens, now), actions, x);
    NothingHeldFor(tokens, now, x);
  }

  lemma SteadyCredits(s: State, a: Name)
    requires Steady(s)
    ensures Entries(s.log.fills, a) == Entries(s.log.credits, a) + Unclaimed(s.orders, a)
  {
    hide PoolOk, Later, Solvent, HoldingsOk, OrdersOk, Covered, FundsOk, DelegationsOk, StakeBacked, Agree, NoEarlySale,
         Tracked, NoDust;
    assert CreditedAt(s.orders, s.log.fills, s.log.credits, 0, [], a);
  }

  // ---------------------------------------------------------------------------------------------
  // When settling an account is refused.

  /** What an account's vote will stand at once it is settled. */
  function SettledStake(s: State, a: Name, pending: int): int {
    At(s.staked, a) + pending + HeldBack(s.orders, a)
  }

  lemma NoNegativeSources(s: State, c: Context, a: Name)
    requires Sound(s, c)
    ensures 0 <= Sum(s.delegated, From(a)) && 0 <= StakeOf(s.balances, a)
  {
    hide PoolOk, Later, Solvent, OrdersOk, Covered, FundsOk, StakeBacked, Agree, NoEarlySale, Tracked, CreditedOnce, NoDust,
         Days, Total;
    SumBounds(s.delegated, From(a));
  }

  lemma SettledTracks(s: State, c: Context)
    requires Sound(s, c)
    ensures SettledStake(s, c.voter, c.stake)
            == Sum(s.delegated, From(c.voter)) + StakeOf(s.balances, c.voter) + At(s.log.drift, c.voter)
  {
    hide PoolOk, Later, Solvent, HoldingsOk, OrdersOk, Covered, FundsOk, DelegationsOk, StakeBacked, Agree, NoEarlySale,
         CreditedOnce, NoDust, Sum;
    assert TrackedAt(s.staked, s.delegated, s.balances, s.orders, s.log.drift, c.voter, c.stake, c.voter);
  }

  /**
   Settling what is pending for an account fails exactly when its vote changes and would fall below
   zero. Its vote would then stand at what it delegates and what its REX counts for, plus drift: so it
   takes a negative drift.
   */
  lemma SettlingFailsIff(s: State, c: Context, proceeds: int, force: bool)
    requires Sound(s, c) && c.filled == [] && 0 <= proceeds
    ensures UpdateAccount(s, c.voter, proceeds, c.stake, force).Err?
            <==> (force || c.stake + HeldBack(s.orders, c.voter) != 0) && SettledStake(s, c.voter, c.stake) < 0
    ensures SettledStake(s, c.voter, c.stake)
            == Sum(s.delegated, From(c.voter)) + StakeOf(s.balances, c.voter) + At(s.log.drift, c.voter)
    ensures SettledStake(s, c.voter, c.stake) < 0 ==> At(s.log.drift, c.voter) < 0
  {
    hide Sound, Sum, Amount, Credit;
    NoNegativeSources(s, c, c.voter);
    SettledTracks(s, c);
    ClaimOrderKeeps(s, c);
    var (t, filled, change) := ClaimOrder(s, c.voter);
    CreditIs(t, c.voter, proceeds + Amount(filled), filled);
  }
}
