/** What staking and unstaking come to, in figures: exactly when they go through, and what they leave. */
module ExchangeStakeActions {
  import opened Basics
  import opened Ledger
  import opened RexPool
  import opened RexBalance
  import opened Exchange
  import opened ExchangeBooks
  import opened ExchangeParts
  import opened ExchangeLoans
  import opened ExchangeShares
  import opened ExchangeOrders
  import opened ExchangeStaking
  import opened ExchangeRuns
  import opened ExchangeHistory
  import opened ExchangeTheorems
  import opened ExchangeMaintenance
  import opened ExchangeActions

  // ---------------------------------------------------------------------------------------------
  // Delegations and bandwidth.

  function RamLimit(resources: map<Name, Resources>, x: Name): int {
    if x in resources then resources[x].ram else 0
  }

  /** A delegation and its receiver's bandwidth change alike; neither table keeps a row of nothing. */
  ghost predicate Redelegated(
    s: State, d: Delegations, resources: map<Name, Resources>, from: Name, to: Name, net: int, cpu: int)
  {
    var v := WeightsOf(s.delegated, from, to);
    && WeightsOf(d, from, to) == Weights(v.net + net, v.cpu + cpu)
    && (Edge(from, to) in d ==> d[Edge(from, to)] != Weights(0, 0))
    && (forall k: Edge :: k != Edge(from, to) ==> (k in d <==> k in s.delegated) && (k in d ==> d[k] == s.delegated[k]))
    && (forall k: Kind, x :: Limit(resources, k, x) == Limit(s.resources, k, x) + (if x == to then Change(k, net, cpu) else 0))
    && (forall x :: RamLimit(resources, x) == RamLimit(s.resources, x))
    && (to in resources && (net != 0 || cpu != 0) ==> resources[to] != Resources(0, 0, 0))
  }

  lemma Redelegates(s: State, from: Name, to: Name, net: int, cpu: int)
    ensures var v := WeightsOf(s.delegated, from, to);
            var d, r := PutWeights(s.delegated, from, to, Weights(v.net + net, v.cpu + cpu)), Limits(s.resources, to, net, cpu);
            r.Ok? ==> Redelegated(s, d, r.value, from, to, net, cpu)
  {
    LimitsChange(s.resources, to, net, cpu);
  }

  lemma LimitsChange(resources: map<Name, Resources>, to: Name, net: int, cpu: int)
    ensures var r := Limits(resources, to, net, cpu);
            r.Ok? ==>
              && (forall k: Kind, x ::
                    Limit(r.value, k, x) == Limit(resources, k, x) + (if x == to then Change(k, net, cpu) else 0))
              && (forall x :: RamLimit(r.value, x) == RamLimit(resources, x))
              && (to in r.value && (net != 0 || cpu != 0) ==> r.value[to] != Resources(0, 0, 0))
  {
  }

  /** RAM bought or sold changes an account's quota, and leaves its bandwidth alone. */
  lemma Quotas(s: State, owner: Name, bytes: nat)
    ensures Step(s, ActRam(owner, bytes)).Ok?
    ensures var t := Step(s, ActRam(owner, bytes)).value;
            && t == s.(resources := t.resources)
            && (forall x :: RamLimit(t.resources, x) == if x == owner then bytes else RamLimit(s.resources, x))
            && (forall k: Kind, x :: Limit(t.resources, k, x) == Limit(s.resources, k, x))
  {
  }

  // ---------------------------------------------------------------------------------------------
  // The vote that follows.

  /** By how much an account's REX is worth more than it counts for in votes. */
  function Revaluation(s: State, owner: Name): int {
    if owner in s.balances && s.pool.Some? && s.pool.value.rex > 0 then
      FloorWorth(s.pool, s.balances[owner].rex) - s.balances[owner].voteStake
    else 0
  }

  function RowsRevalued(s: State, owner: Name): map<Name, Balance> {
    if owner in s.balances then
      s.balances[owner := s.balances[owner].(voteStake := s.balances[owner].voteStake + Revaluation(s, owner))]
    else s.balances
  }

  /** Before a vote, its owner's REX counts for what it is worth. */
  lemma VotesWithRex(s: State, owner: Name)
    requires owner in s.balances ==> owner in s.staked
    ensures var t := UpdateRexStake(s, owner);
            && t.balances == RowsRevalued(s, owner) && t == s.(balances := t.balances, staked := t.staked)
            && Grown(s.staked, t.staked, owner, Revaluation(s, owner))
  {
    hide Worth, FloorWorth, Grown;
    if owner in s.balances && s.pool.Some? && s.pool.value.rex > 0 {
      WorthFigures(s.pool, s.balances[owner].rex);
      GrownBy(s.staked, owner, Revaluation(s, owner));
    } else if owner in s.balances {
      assert s.balances[owner := s.balances[owner]] == s.balances;
    }
    GrownByNothing(s.staked, owner);
  }

  lemma GrownBy(m: map<Name, int>, owner: Name, amount: int)
    requires owner in m
    ensures Grown(m, m[owner := m[owner] + amount], owner, amount)
  {
  }

  lemma ThenVotes(s: State, owner: Name, delta: int)
    requires owner in s.balances ==> owner in s.staked
    ensures var r := ChangeVotes(UpdateRexStake(s, owner), owner, delta);
            && (r.Ok? <==> 0 <= At(s.staked, owner) + Revaluation(s, owner) + delta)
            && (r.Ok? ==>
                  && r.value.balances == RowsRevalued(s, owner)
                  && r.value == s.(balances := r.value.balances, staked := r.value.staked)
                  && Grown(s.staked, r.value.staked, owner, Revaluation(s, owner) + delta))
  {
    hide UpdateRexStake, ChangeVotes, RowsRevalued, Revaluation;
    VotesWithRex(s, owner);
    VotesChange(UpdateRexStake(s, owner), owner, delta);
  }

  // ---------------------------------------------------------------------------------------------
  // Refunds.

  function PendingNet(refunds: map<Name, Refund>, owner: Name): int {
    if owner in refunds then refunds[owner].net else 0
  }

  function PendingCpu(refunds: map<Name, Refund>, owner: Name): int {
    if owner in refunds then refunds[owner].cpu else 0
  }

  function Beyond(amount: int, cover: int): int {
    if amount > cover then amount - cover else 0
  }

  /** What is staked comes out of the account's own refund first, and what is unstaked goes into it, waiting anew. */
  ghost predicate Drawn(refunds: map<Name, Refund>, after: map<Name, Refund>, owner: Name, net: int, cpu: int, now: int) {
    var netLeft, cpuLeft := Beyond(PendingNet(refunds, owner), net), Beyond(PendingCpu(refunds, owner), cpu);
    && (owner in after <==> netLeft != 0 || cpuLeft != 0)
    && (owner in after ==>
          && after[owner].net == netLeft && after[owner].cpu == cpuLeft
          && (net < 0 || cpu < 0 ==> after[owner].time == now / 1_000_000)
          && (0 <= net && 0 <= cpu && owner in refunds ==> after[owner].time == refunds[owner].time))
    && forall x :: x != owner ==> (x in after <==> x in refunds) && (x in refunds ==> after[x] == refunds[x])
  }

  /** The tokens a stake change takes. */
  function DueFor(refunds: map<Name, Refund>, owner: Name, net: int, cpu: int): int {
    Beyond(net, PendingNet(refunds, owner)) + Beyond(cpu, PendingCpu(refunds, owner))
  }

  lemma Draws(refunds: map<Name, Refund>, owner: Name, net: int, cpu: int, now: int)
    requires RefundsOk(refunds)
    ensures var (after, due) := Settle(refunds, owner, net, cpu, Sec(now));
            Drawn(refunds, after, owner, net, cpu, now) && due == DueFor(refunds, owner, net, cpu)
  {
  }

  // ---------------------------------------------------------------------------------------------
  // Delegating and undelegating.

  /** Everything but refunds, tokens and the log. */
  ghost predicate Restaked(s: State, t: State, from: Name, receiver: Name, net: int, cpu: int) {
    && t == s.(delegated := t.delegated, resources := t.resources, refunds := t.refunds, tokens := t.tokens,
               balances := RowsRevalued(s, from), staked := t.staked, log := t.log)
    && Redelegated(s, t.delegated, t.resources, from, receiver, net, cpu)
    && Grown(s.staked, t.staked, from, Revaluation(s, from) + net + cpu)
  }

  ghost predicate BigEnough(s: State, from: Name, receiver: Name, net: int, cpu: int) {
    var v := WeightsOf(s.delegated, from, receiver);
    && 0 <= v.net + net && 0 <= v.cpu + cpu && 0 <= At(s.staked, from) + Revaluation(s, from) + net + cpu
  }

  lemma SteadyStakes(s: State)
    requires Reached(s)
    ensures RefundsOk(s.refunds) && forall x :: x in s.balances ==> x in s.staked
    ensures forall from, to :: 0 <= WeightsOf(s.delegated, from, to).net && 0 <= WeightsOf(s.delegated, from, to).cpu
  {
    hide PoolOk, Later, Solvent, HoldingsOk, OrdersOk, Covered, FundsOk, Agree, NoEarlySale, CreditedOnce, NoDust, Run, TrackedAt;
    ReachedIsSteady(s);
  }

  /** A delegation may change as far as it stays positive: bandwidth totals never refuse. */
  lemma DelegationBooked(s: State, from: Name, receiver: Name, net: int, cpu: int)
    requires Reached(s)
    requires var v := WeightsOf(s.delegated, from, receiver); 0 <= v.net + net && 0 <= v.cpu + cpu
    ensures var v := WeightsOf(s.delegated, from, receiver);
            var d := PutWeights(s.delegated, from, receiver, Weights(v.net + net, v.cpu + cpu));
            var resources := Limits(s.resources, receiver, net, cpu);
            resources.Ok? && Redelegated(s, d, resources.value, from, receiver, net, cpu)
  {
    hide Sound, Run, Limits, PutWeights, Redelegated;
    ReachedIsSteady(s);
    AnyVoter(s, Idle(s, 0), from);
    var v := WeightsOf(s.delegated, from, receiver);
    DelegationBooks(s, Idle(s, from), receiver, Weights(v.net + net, v.cpu + cpu));
    Redelegates(s, from, receiver, net, cpu);
  }

  /** The delegation and its bandwidth, which never fails on its own account. */
  lemma DelegationMoves(s: State, from: Name, receiver: Name, net: int, cpu: int)
    requires Reached(s)
    ensures var r1, v := Delegated(s, from, receiver, net, cpu), WeightsOf(s.delegated, from, receiver);
            && (r1.Ok? <==> 0 <= v.net + net && 0 <= v.cpu + cpu)
            && (r1.Ok? ==>
                  var r2 := UpdateLimits(r1.value, receiver, net, cpu);
                  && r2.Ok? && r2.value == s.(delegated := r2.value.delegated, resources := r2.value.resources)
                  && Redelegated(s, r2.value.delegated, r2.value.resources, from, receiver, net, cpu))
  {
    hide Reached, Limits, PutWeights, Redelegated;
    var v := WeightsOf(s.delegated, from, receiver);
    if 0 <= v.net + net && 0 <= v.cpu + cpu {
      DelegationBooked(s, from, receiver, net, cpu);
    }
  }

  /** `delegatebw`: to oneself out of a pending refund first, and otherwise out of one's own tokens. */
  lemma Delegates(s: State, owner: Name, receiver: Name, net: int, cpu: int, transfer: bool)
    requires Reached(s) && Outside(ActDelegateBw(owner, receiver, net, cpu, transfer))
    ensures var r, from := Step(s, ActDelegateBw(owner, receiver, net, cpu, transfer)), if transfer then receiver else owner;
            var drawing := !transfer && owner == receiver;
            var due := if drawing then DueFor(s.refunds, owner, net, cpu) else net + cpu;
            && (r.Ok? <==> && 0 <= net && 0 <= cpu && 0 < net + cpu && !(transfer && owner == receiver)
                           && (due == 0 || due <= At(s.tokens, owner))
                           && 0 <= At(s.staked, from) + Revaluation(s, from) + net + cpu)
            && (r.Ok? ==>
                  && Restaked(s, r.value, from, receiver, net, cpu) && r.value.log == s.log
                  && Moved(s.tokens, r.value.tokens, owner, STAKE_ACCOUNT, due)
                  && if drawing then Drawn(s.refunds, r.value.refunds, owner, net, cpu, s.now) else r.value.refunds == s.refunds)
  {
    hide Step, Run, Delegated, UpdateLimits, SettleStake, UpdateRexStake, ChangeVotes, Redelegated, RowsRevalued, Revaluation,
         Drawn, DueFor, RefundsOk, WeightsOf, Grown;
    DelegateStep(s, owner, receiver, net, cpu, transfer);
    if 0 <= net && 0 <= cpu && 0 < net + cpu && !(transfer && owner == receiver) {
      var from := if transfer then receiver else owner;
      SteadyStakes(s);
      DelegationMoves(s, from, receiver, net, cpu);
      var r2 := UpdateLimits(Delegated(s, from, receiver, net, cpu).value, receiver, net, cpu);
      StakeIsPaid(r2.value, owner, from, receiver, net, cpu, transfer);
      var r3 := SettleStake(r2.value, owner, from, receiver, net, cpu, transfer);
      if r3.Ok? {
        SameVotes(s, r3.value, from);
        ThenVotes(r3.value, from, net + cpu);
      }
    }
  }

  lemma DelegateStep(s: State, owner: Name, receiver: Name, net: int, cpu: int, transfer: bool)
    ensures Step(s, ActDelegateBw(owner, receiver, net, cpu, transfer)) == DelegateBw(s, owner, receiver, net, cpu, transfer)
  {
    hide DelegateBw;
  }

  lemma SameVotes(s: State, t: State, owner: Name)
    requires t.pool == s.pool && t.balances == s.balances
    ensures Revaluation(t, owner) == Revaluation(s, owner) && RowsRevalued(t, owner) == RowsRevalued(s, owner)
  {
    hide FloorWorth;
  }

  lemma StakeIsPaid(s: State, source: Name, from: Name, receiver: Name, net: int, cpu: int, transfer: bool)
    requires 0 <= net && 0 <= cpu && RefundsOk(s.refunds) && source != STAKE_ACCOUNT
    ensures var r, drawing := SettleStake(s, source, from, receiver, net, cpu, transfer), !transfer && from == receiver;
            var due := if drawing then DueFor(s.refunds, from, net, cpu) else net + cpu;
            && (r.Ok? <==> due == 0 || due <= At(s.tokens, source))
            && (r.Ok? ==>
                  && r.value == s.(tokens := r.value.tokens, refunds := r.value.refunds)
                  && Moved(s.tokens, r.value.tokens, source, STAKE_ACCOUNT, due)
                  && if drawing then Drawn(s.refunds, r.value.refunds, from, net, cpu, s.now) else r.value.refunds == s.refunds)
  {
    hide Pay, Settle, Drawn;
    Draws(s.refunds, from, net, cpu, s.now);
    var settled := Settlement(s, from, receiver, net, cpu, transfer);
    Pays(s.(refunds := settled.0), source, STAKE_ACCOUNT, settled.1, Rejected);
  }

  /** `undelegatebw`: what was delegated waits in the refund row, whose time starts anew; no tokens move. */
  lemma Undelegates(s: State, owner: Name, receiver: Name, net: int, cpu: int, activated: bool)
    requires Reached(s) && Outside(ActUndelegateBw(owner, receiver, net, cpu, activated))
    ensures var r, v := Step(s, ActUndelegateBw(owner, receiver, net, cpu, activated)), WeightsOf(s.delegated, owner, receiver);
            && (r.Ok? <==> && 0 <= net <= v.net && 0 <= cpu <= v.cpu && 0 < net + cpu && activated
                           && 0 <= At(s.staked, owner) + Revaluation(s, owner) - net - cpu)
            && (r.Ok? ==>
                  && Restaked(s, r.value, owner, receiver, -net, -cpu) && r.value.tokens == s.tokens
                  && Drawn(s.refunds, r.value.refunds, owner, -net, -cpu, s.now)
                  && r.value.log == s.log.(unstaked := s.log.unstaked + [Unstaking(owner, s.now, net + cpu)]))
  {
    hide Step, Run, Delegated, UpdateLimits, SettleStake, UpdateRexStake, ChangeVotes, Redelegated, RowsRevalued, Revaluation,
         Drawn, RefundsOk, WeightsOf, Grown;
    UndelegateStep(s, owner, receiver, net, cpu, activated);
    if 0 <= net && 0 <= cpu && 0 < net + cpu && activated {
      SteadyStakes(s);
      DelegationMoves(s, owner, receiver, -net, -cpu);
      var r1 := Delegated(s, owner, receiver, -net, -cpu);
      if r1.Ok? {
        var r2 := UpdateLimits(r1.value, receiver, -net, -cpu);
        StakeIsSetAside(r2.value, owner, receiver, net, cpu);
        var r3 := SettleStake(r2.value, owner, owner, receiver, -net, -cpu, false);
        SameVotes(s, r3.value, owner);
        ThenVotes(r3.value, owner, -net - cpu);
      }
    }
  }

  lemma UndelegateStep(s: State, owner: Name, receiver: Name, net: int, cpu: int, activated: bool)
    ensures Step(s, ActUndelegateBw(owner, receiver, net, cpu, activated))
            == UndelegateBw(s, owner, receiver, net, cpu, activated)
  {
    hide UndelegateBw;
  }

  lemma StakeIsSetAside(s: State, owner: Name, receiver: Name, net: int, cpu: int)
    requires RefundsOk(s.refunds) && 0 <= net && 0 <= cpu && 0 < net + cpu
    ensures var r := SettleStake(s, owner, owner, receiver, -net, -cpu, false);
            && r.Ok? && Drawn(s.refunds, r.value.refunds, owner, -net, -cpu, s.now)
            && r.value == s.(refunds := r.value.refunds,
                             log := s.log.(unstaked := s.log.unstaked + [Unstaking(owner, s.now, net + cpu)]))
  {
    hide Pay, Settle, Drawn;
    Draws(s.refunds, owner, -net, -cpu, s.now);
  }

  // ---------------------------------------------------------------------------------------------
  // Staked tokens for shares.

  /** The tables between undelegating and buying. */
  ghost predicate Taken(s: State, v: State, owner: Name, receiver: Name, net: int, cpu: int) {
    && v == s.(delegated := v.delegated, resources := v.resources, tokens := v.tokens)
    && Redelegated(s, v.delegated, v.resources, owner, receiver, -net, -cpu)
    && Moved(s.tokens, v.tokens, STAKE_ACCOUNT, REX_ACCOUNT, net + cpu)
  }

  predicate MayUnstake(s: State, owner: Name, receiver: Name, net: int, cpu: int, voted: bool) {
    var v := WeightsOf(s.delegated, owner, receiver);
    0 <= net <= v.net && 0 <= cpu <= v.cpu && 0 < net + cpu && owner in s.staked && voted
  }

  lemma Takes(s: State, owner: Name, receiver: Name, net: int, cpu: int)
    requires Reached(s) && 0 <= net && 0 <= cpu && 0 < net + cpu
    ensures var r, v := TakeDelegated(s, owner, receiver, net, cpu), WeightsOf(s.delegated, owner, receiver);
            && (r.Ok? <==> net <= v.net && cpu <= v.cpu)
            && (r.Ok? ==> Taken(s, r.value, owner, receiver, net, cpu))
  {
    hide Reached, Limits, PutWeights, Redelegated, Pay, Moved;
    StakeCovers(s, owner, receiver);
    var v := WeightsOf(s.delegated, owner, receiver);
    if net <= v.net && cpu <= v.cpu {
      DelegationBooked(s, owner, receiver, -net, -cpu);
      var e := PutWeights(s.delegated, owner, receiver, Weights(v.net - net, v.cpu - cpu));
      var t := s.(delegated := e, resources := Limits(s.resources, receiver, -net, -cpu).value);
      Pays(t, STAKE_ACCOUNT, REX_ACCOUNT, net + cpu, Broken);
    }
  }

  lemma StakeCovers(s: State, owner: Name, receiver: Name)
    requires Reached(s)
    ensures var v := WeightsOf(s.delegated, owner, receiver); v.net + v.cpu <= At(s.tokens, STAKE_ACCOUNT)
  {
    hide Sound, Run;
    ReachedIsSteady(s);
    DelegatedBacked(s, Idle(s, 0), owner, receiver);
  }

  /**
   `unstaketorex`: the tokens delegated move to the exchange and buy shares there; then maintenance; and the account
   is settled as if nothing had changed for its vote.
   */
  lemma Unstakes(s: State, owner: Name, receiver: Name, net: int, cpu: int, voted: bool) returns (v: State, w: State)
    requires Reached(s) && Outside(ActUnstakeToRex(owner, receiver, net, cpu, voted))
    ensures var r := Step(s, ActUnstakeToRex(owner, receiver, net, cpu, voted));
            var ready := MayUnstake(s, owner, receiver, net, cpu, voted);
            && (r.Ok? ==> ready)
            && (ready ==>
                  && Taken(s, v, owner, receiver, net, cpu) && BoughtIn(v, w, owner, net + cpu)
                  && (RunRex(w, 2).Ok? <==> NamebidsPaid(w))
                  && (r.Ok? <==> RunRex(w, 2).Ok? && MaySettle(RunRex(w, 2).value, owner, 0, true))
                  && (r.Ok? ==> SettledFor(RunRex(w, 2).value, r.value, owner, 0, 0)))
  {
    hide Run, RunRex, BuyIn, UpdateAccount, SettledFor, MaySettle, Sound, StakeWith, BoughtIn, NamebidsPaid, TakeDelegated, Taken,
         AddDrift, WeightsOf;
    v, w := s, s;
    if 0 <= net && 0 <= cpu && 0 < net + cpu {
      Takes(s, owner, receiver, net, cpu);
      if MayUnstake(s, owner, receiver, net, cpu, voted) {
        v := TakeDelegated(s, owner, receiver, net, cpu).value;
        var d;
        w, d := UnstakeSound(s, v, owner, receiver, net, cpu);
        if RunRex(w, 2).Ok? {
          FilledNotNegative(RunRex(w, 2).value, d, owner);
          Settles(RunRex(w, 2).value, owner, 0, 0, true);
        }
      }
    }
  }

  lemma UnstakeSound(s: State, v: State, owner: Name, receiver: Name, net: int, cpu: int) returns (w: State, pending: Context)
    requires Reached(s) && owner in s.staked && 0 <= net && 0 <= cpu && 0 < net + cpu
    requires TakeDelegated(s, owner, receiver, net, cpu) == Ok(v)
    ensures BuyIn(v, owner, net + cpu).Ok?
    ensures var (t, change) := BuyIn(v, owner, net + cpu).value; w == AddDrift(t, owner, net + cpu - change)
    ensures BoughtIn(v, w, owner, net + cpu)
    ensures RunRex(w, 2).Ok? <==> NamebidsPaid(w)
    ensures RunRex(w, 2).Ok? ==> Sound(RunRex(w, 2).value, pending)
  {
    hide Run, RunRex, BuyIn, Sound, TakeDelegated, NamebidsPaid, BoughtIn, AddDrift;
    ReachedIsSteady(s);
    AnyVoter(s, Idle(s, 0), owner);
    pending := Idle(s, owner);
    TakeDelegatedKeeps(s, pending, receiver, net, cpu);
    SoundBalanced(v, pending.(money := net + cpu, stake := -net - cpu));
    BuyInKeeps(v, pending.(money := net + cpu, stake := -net - cpu), net + cpu);
    BuysIn(v, owner, net + cpu);
    var (t, change) := BuyIn(v, owner, net + cpu).value;
    AddDriftKeeps(t, pending.(stake := change - net - cpu), net + cpu - change);
    w := AddDrift(t, owner, net + cpu - change);
    DriftBeside(v, t, owner, net + cpu, net + cpu - change);
    RunRexOkIff(w, pending, 2);
  }

  lemma DriftBeside(v: State, t: State, owner: Name, payment: int, drift: int)
    requires BoughtIn(v, t, owner, payment)
    ensures BoughtIn(v, AddDrift(t, owner, drift), owner, payment)
  {
    hide AddPurchase, PoolWith, Issued;
  }

  lemma SoundBalanced(s: State, c: Context)
    requires Sound(s, c)
    ensures s.pool.Some? ==> Balanced(s.pool.value)
  {
    hide Later, Solvent, HoldingsOk, OrdersOk, Covered, FundsOk, Agree, StakeBacked, Tracked, NoEarlySale, CreditedOnce, NoDust,
         DelegationsOk, Lent;
  }
}
