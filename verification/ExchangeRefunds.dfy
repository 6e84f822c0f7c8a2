/** Refunds of unstaked tokens: what waits, since when, and that nothing is paid before its time. */
module ExchangeRefunds {
  import opened Basics
  import opened Ledger
  import opened RexPool
  import opened RexBalance
  import opened Exchange
  import opened ExchangeBooks
  import opened ExchangeOrders
  import opened ExchangeStaking
  import opened ExchangeRuns
  import opened ExchangeHistory
  import opened ExchangeTheorems
  import opened Sums

  /** Whether tokens unstaked at a time were unstaked three days ago or more, the time kept in whole seconds. */
  predicate Due(time: int, now: int) {
    time / 1_000_000 * 1_000_000 + 259_200_000_000 <= now
  }

  /** What an account unstaked in all. */
  function UnstakedBy(log: seq<Unstaking>, owner: Name): int {
    if log == [] then 0
    else
      var last := log[|log| - 1];
      UnstakedBy(log[..|log| - 1], owner) + (if last.owner == owner then last.amount else 0)
  }

  /** What it unstaked three days ago or more. */
  function DueBy(log: seq<Unstaking>, owner: Name, now: int): int {
    if log == [] then 0
    else
      var last := log[|log| - 1];
      DueBy(log[..|log| - 1], owner, now) + (if last.owner == owner && Due(last.time, now) then last.amount else 0)
  }

  /** When it last unstaked. */
  function LastUnstaked(log: seq<Unstaking>, owner: Name): Option<int> {
    if log == [] then None
    else
      var last := log[|log| - 1];
      if last.owner == owner then Some(last.time) else LastUnstaked(log[..|log| - 1], owner)
  }

  /** The log is in order of time. */
  predicate Logged(log: seq<Unstaking>, now: int) {
    && (forall i :: 0 <= i < |log| ==> log[i].time <= now && 0 < log[i].amount)
    && (forall i, j :: 0 <= i < j < |log| ==> log[i].time <= log[j].time)
  }

  /** An account's refund: what waits was unstaked, last when the row says, and what was paid was due. */
  predicate TimelyAt(refunds: map<Name, Refund>, log: seq<Unstaking>, refunded: map<Name, int>, now: int, a: Name) {
    && At(refunded, a) <= DueBy(log, a, now)
    && (a in refunds ==>
          var r := refunds[a];
          && 0 <= r.net && 0 <= r.cpu && 0 < r.net + r.cpu
          && At(refunded, a) + r.net + r.cpu <= UnstakedBy(log, a)
          && LastUnstaked(log, a).Some? && r.time == LastUnstaked(log, a).value / 1_000_000)
  }

  ghost predicate Timely(s: State) {
    Logged(s.log.unstaked, s.now) && forall a :: TimelyAt(s.refunds, s.log.unstaked, s.log.refunded, s.now, a)
  }

  // ---------------------------------------------------------------------------------------------
  // The log.

  /** Once the last of it is due, all of it is. */
  lemma {:induction false} AllDue(log: seq<Unstaking>, owner: Name, time: int, now: int)
    requires forall i :: 0 <= i < |log| && log[i].owner == owner ==> log[i].time <= time
    requires Due(time, now)
    ensures DueBy(log, owner, now) == UnstakedBy(log, owner)
    decreases |log|
  {
    if log != [] {
      AllDue(log[..|log| - 1], owner, time, now);
      var last := log[|log| - 1];
      assert last.owner == owner ==> last.time / 1_000_000 <= time / 1_000_000;
    }
  }

  lemma {:induction false} NoneLater(log: seq<Unstaking>, owner: Name, now: int)
    requires Logged(log, now) && LastUnstaked(log, owner).Some?
    ensures forall i :: 0 <= i < |log| && log[i].owner == owner ==> log[i].time <= LastUnstaked(log, owner).value
    decreases |log|
  {
    if log[|log| - 1].owner != owner {
      NoneLater(log[..|log| - 1], owner, now);
    }
  }

  /** As time passes, more is due. */
  lemma {:induction false} MoreDue(log: seq<Unstaking>, owner: Name, now: int, later: int)
    requires Logged(log, now) && now <= later
    ensures DueBy(log, owner, now) <= DueBy(log, owner, later)
    decreases |log|
  {
    if log != [] {
      MoreDue(log[..|log| - 1], owner, now, later);
    }
  }

  lemma Appended(log: seq<Unstaking>, u: Unstaking, a: Name, now: int)
    requires u.amount >= 0
    ensures UnstakedBy(log + [u], a) == UnstakedBy(log, a) + (if u.owner == a then u.amount else 0)
    ensures DueBy(log + [u], a, now) >= DueBy(log, a, now)
    ensures LastUnstaked(log + [u], a) == if u.owner == a then Some(u.time) else LastUnstaked(log, a)
  {
    assert (log + [u])[..|log|] == log;
  }

  // ---------------------------------------------------------------------------------------------
  // Every action.

  /** What settling a stake change makes of an account's refund row. */
  lemma SettledRow(refunds: map<Name, Refund>, from: Name, net: int, cpu: int, sec: int)
    requires SameSign(net, cpu) && (net != 0 || cpu != 0)
    requires from in refunds ==> 0 <= refunds[from].net && 0 <= refunds[from].cpu
    ensures var t := Settle(refunds, from, net, cpu, sec).0;
            && (forall a :: a != from ==> (a in t <==> a in refunds) && (a in refunds ==> t[a] == refunds[a]))
            && (from in t ==> 0 <= t[from].net && 0 <= t[from].cpu && 0 < t[from].net + t[from].cpu)
            && (net + cpu < 0 ==>
                  && from in t && t[from].time == sec
                  && t[from].net + t[from].cpu == (if from in refunds then refunds[from].net + refunds[from].cpu else 0) - net - cpu)
            && (net + cpu > 0 && from in t ==>
                  && from in refunds && t[from].time == refunds[from].time
                  && t[from].net + t[from].cpu <= refunds[from].net + refunds[from].cpu)
  {
  }

  lemma StakeSettlesTimely(s: State, source: Name, from: Name, receiver: Name, net: int, cpu: int, transfer: bool)
    requires Timely(s) && SameSign(net, cpu) && (net != 0 || cpu != 0)
    ensures var r := SettleStake(s, source, from, receiver, net, cpu, transfer); r.Ok? ==> Timely(r.value)
  {
    hide Settlement, UnstakedBy, DueBy, LastUnstaked, Due, Pay, TimelyAt;
    var settled := Settlement(s, from, receiver, net, cpu, transfer);
    var t := LogUnstaking(s.(refunds := settled.0), from, -(net + cpu));
    PayFrame(t, source, STAKE_ACCOUNT, settled.1, Rejected);
    forall a
      ensures TimelyAt(t.refunds, t.log.unstaked, t.log.refunded, t.now, a)
    {
      assert TimelyAt(s.refunds, s.log.unstaked, s.log.refunded, s.now, from);
      assert TimelyAt(s.refunds, s.log.unstaked, s.log.refunded, s.now, a);
      SettlesTimelyAt(s, from, receiver, net, cpu, transfer, a);
    }
  }

  /** One account's row: as it was, or grown by what is logged now, or drawn on. */
  lemma SettlesTimelyAt(s: State, from: Name, receiver: Name, net: int, cpu: int, transfer: bool, a: Name)
    requires SameSign(net, cpu) && (net != 0 || cpu != 0) && Logged(s.log.unstaked, s.now)
    requires TimelyAt(s.refunds, s.log.unstaked, s.log.refunded, s.now, from)
    requires TimelyAt(s.refunds, s.log.unstaked, s.log.refunded, s.now, a)
    ensures var t := LogUnstaking(s.(refunds := Settlement(s, from, receiver, net, cpu, transfer).0), from, -(net + cpu));
            TimelyAt(t.refunds, t.log.unstaked, t.log.refunded, t.now, a)
  {
    hide Settle, TimelyAt, SameSign, Logged;
    if (!transfer && from == receiver) || net + cpu < 0 {
      var refunds := Settle(s.refunds, from, net, cpu, Sec(s.now)).0;
      RowSettlesTimely(s.refunds, s.log.unstaked, s.log.refunded, s.now, from, net, cpu, a);
    } else {
      NotNegative(net, cpu);
    }
  }

  lemma NotNegative(net: int, cpu: int)
    requires SameSign(net, cpu)
    ensures net + cpu == 0 ==> net == 0 && cpu == 0
  {
  }

  lemma RowSettlesTimely(
    refunds: map<Name, Refund>, log: seq<Unstaking>, refunded: map<Name, int>, now: int, from: Name, net: int, cpu: int, a: Name)
    requires SameSign(net, cpu) && (net != 0 || cpu != 0) && Logged(log, now)
    requires TimelyAt(refunds, log, refunded, now, from) && TimelyAt(refunds, log, refunded, now, a)
    ensures var after := if net + cpu < 0 then log + [Unstaking(from, now, -(net + cpu))] else log;
            TimelyAt(Settle(refunds, from, net, cpu, Sec(now)).0, after, refunded, now, a)
  {
    hide Settle, UnstakedBy, DueBy, LastUnstaked, Due;
    SettledRow(refunds, from, net, cpu, Sec(now));
    DueWithin(log, a, now);
    if net + cpu < 0 {
      Appended(log, Unstaking(from, now, -(net + cpu)), a, now);
    }
  }

  lemma BeforeSettling(s: State, from: Name, receiver: Name, net: int, cpu: int)
    ensures var r1 := Delegated(s, from, receiver, net, cpu);
            r1.Ok? ==>
              var r2 := UpdateLimits(r1.value, receiver, net, cpu);
              r2.Ok? ==> Waits(s, r2.value)
  {
    hide UpdateLimits, PutWeights;
    var r1 := Delegated(s, from, receiver, net, cpu);
    if r1.Ok? {
      UpdateLimitsFrame(r1.value, receiver, net, cpu);
    }
  }

  lemma AfterSettling(s: State, from: Name, change: int)
    ensures var r := ChangeVotes(UpdateRexStake(s, from), from, change); r.Ok? ==> Waits(s, r.value)
  {
    hide UpdateRexStake, ChangeVotes;
    var rows, stakes := UpdateRexStakeFrame(s, from);
    ChangeVotesFrame(UpdateRexStake(s, from), from, change);
  }

  lemma ChangeBwTimely(s: State, source: Name, receiver: Name, net: int, cpu: int, transfer: bool)
    requires Timely(s)
    ensures var r := ChangeBw(s, source, receiver, net, cpu, transfer); r.Ok? ==> Timely(r.value)
  {
    hide Delegated, UpdateLimits, SettleStake, UpdateRexStake, ChangeVotes, Timely, Waits, SameSign;
    var from := if transfer then receiver else source;
    var r1 := Delegated(s, from, receiver, net, cpu);
    if r1.Ok? && (net != 0 || cpu != 0) && Abs(net + cpu) >= Abs(net) && Abs(net + cpu) >= Abs(cpu) {
      NotOpposite(net, cpu);
      BeforeSettling(s, from, receiver, net, cpu);
      var r2 := UpdateLimits(r1.value, receiver, net, cpu);
      if r2.Ok? {
        WaitsTimely(s, r2.value);
        StakeSettlesTimely(r2.value, source, from, receiver, net, cpu, transfer);
        var r3 := if source == STAKE_ACCOUNT then Ok(r2.value) else SettleStake(r2.value, source, from, receiver, net, cpu, transfer);
        if r3.Ok? {
          AfterSettling(r3.value, from, net + cpu);
          AfterWaiting(r3.value, ChangeVotes(UpdateRexStake(r3.value, from), from, net + cpu));
        }
      }
    }
  }

  lemma ClaimRefundTimely(s: State, owner: Name)
    requires Timely(s)
    ensures var r := ClaimRefund(s, owner); r.Ok? ==> Timely(r.value)
  {
    hide UnstakedBy, DueBy, LastUnstaked, Pay, TimelyAt;
    var r := ClaimRefund(s, owner);
    if r.Ok? {
      PayFrame(s, STAKE_ACCOUNT, owner, s.refunds[owner].net + s.refunds[owner].cpu, Broken);
      forall a
        ensures TimelyAt(r.value.refunds, s.log.unstaked, r.value.log.refunded, s.now, a)
      {
        assert TimelyAt(s.refunds, s.log.unstaked, s.log.refunded, s.now, a);
        PaidTimely(s, owner, a);
      }
    }
  }

  lemma PaidTimely(s: State, owner: Name, a: Name)
    requires Logged(s.log.unstaked, s.now) && TimelyAt(s.refunds, s.log.unstaked, s.log.refunded, s.now, a)
    requires ClaimRefund(s, owner).Ok?
    ensures owner in s.refunds
    ensures var r := s.refunds[owner];
            TimelyAt(s.refunds - {owner}, s.log.unstaked,
                     s.log.refunded[owner := At(s.log.refunded, owner) + r.net + r.cpu], s.now, a)
  {
    hide UnstakedBy, DueBy, LastUnstaked, Pay;
    if a == owner {
      var last := LastUnstaked(s.log.unstaked, a).value;
      NoneLater(s.log.unstaked, a, s.now);
      AllDue(s.log.unstaked, a, last, s.now);
    }
  }

  lemma TimePasses(s: State, now: int)
    requires Timely(s) && now >= s.now
    ensures Timely(s.(now := now))
  {
    hide UnstakedBy, DueBy, LastUnstaked, TimelyAt;
    forall a
      ensures TimelyAt(s.refunds, s.log.unstaked, s.log.refunded, now, a)
    {
      assert TimelyAt(s.refunds, s.log.unstaked, s.log.refunded, s.now, a);
      MoreDue(s.log.unstaked, a, s.now, now);
      LaterTimely(s, now, a);
    }
  }

  lemma LaterTimely(s: State, now: int, a: Name)
    requires TimelyAt(s.refunds, s.log.unstaked, s.log.refunded, s.now, a)
    requires DueBy(s.log.unstaked, a, now) >= DueBy(s.log.unstaked, a, s.now)
    ensures TimelyAt(s.refunds, s.log.unstaked, s.log.refunded, now, a)
  {
    hide UnstakedBy, DueBy, LastUnstaked;
  }

  lemma WaitsTimely(s: State, t: State)
    requires Timely(s) && Waits(s, t)
    ensures Timely(t)
  {
    hide TimelyAt;
    forall a
      ensures TimelyAt(t.refunds, t.log.unstaked, t.log.refunded, t.now, a)
    {
      assert TimelyAt(s.refunds, s.log.unstaked, s.log.refunded, s.now, a);
    }
  }

  lemma RestakingTimely(s: State, a: Action)
    requires Timely(s) && (Restakes(a) || a.ActTime?)
    ensures Step(s, a).Ok? ==> Timely(Step(s, a).value)
  {
    hide Timely, ChangeBw, ClaimRefund;
    match a
    case ActDelegateBw(owner, receiver, net, cpu, transfer) => ChangeBwTimely(s, owner, receiver, net, cpu, transfer);
    case ActUndelegateBw(owner, receiver, net, cpu, _) => ChangeBwTimely(s, owner, receiver, -net, -cpu, false);
    case ActRefund(owner) => ClaimRefundTimely(s, owner);
    case ActTime(_, now) =>
      if s.now <= now {
        TimePasses(s, now);
      }
  }

  lemma OthersWait(s: State, a: Action)
    requires !Restakes(a) && !a.ActTime? && Step(s, a).Ok?
    ensures Waits(s, Step(s, a).value)
  {
    hide BuyRex, UnstakeToRex, CloseRex, Waits, Still;
    match a
    case ActBuyRex(owner, amount, voted) => BuyRexHistory(s, owner, amount, voted);
    case ActUnstakeToRex(owner, receiver, net, cpu, voted) => UnstakeToRexHistory(s, owner, receiver, net, cpu, voted);
    case ActCloseRex(owner) => CloseRexHistory(s, owner);
    case _ =>
      hide Step;
      OtherStepsQuiet(s, a);
  }

  lemma StepTimely(s: State, a: Action)
    requires Timely(s)
    ensures Step(s, a).Ok? ==> Timely(Step(s, a).value)
  {
    hide Timely, Step, Waits;
    if Restakes(a) || a.ActTime? {
      RestakingTimely(s, a);
    } else if Step(s, a).Ok? {
      OthersWait(s, a);
      WaitsTimely(s, Step(s, a).value);
    }
  }

  lemma AfterWaiting(s: State, r: Result<State>)
    requires Timely(s) && (r.Ok? ==> Waits(s, r.value))
    ensures r.Ok? ==> Timely(r.value)
  {
    hide Timely, Waits;
    if r.Ok? {
      WaitsTimely(s, r.value);
    }
  }

  lemma {:induction false} RunTimely(s: State, actions: seq<Action>)
    requires Timely(s)
    ensures Timely(Run(s, actions))
    decreases |actions|
  {
    hide Timely, Step;
    if actions != [] {
      RunTimely(s, actions[..|actions| - 1]);
      StepTimely(Run(s, actions[..|actions| - 1]), actions[|actions| - 1]);
    }
  }

  lemma ReachedIsTimely(s: State)
    requires Reached(s)
    ensures Timely(s)
  {
    hide Timely, Run, Fresh;
    var tokens: Tokens, now: int, actions: seq<Action> :|
      Fresh(tokens, now) && AllOutside(actions) && s == Run(Genesis(tokens, now), actions);
    assert Timely(Genesis(tokens, now)) by {
      NothingWaits(tokens, now);
    }
    RunTimely(Genesis(tokens, now), actions);
  }

  lemma NothingWaits(tokens: Tokens, now: int)
    ensures Timely(Genesis(tokens, now))
  {
  }

  // ---------------------------------------------------------------------------------------------
  // The theorems.

  /**
   No early refund: what `refund` has paid an account so far it unstaked three days ago or earlier; and what
   it was paid and what still waits, together, it unstaked.
   */
  lemma NeverRefundedEarly(s: State, a: Name)
    requires Reached(s)
    ensures At(s.log.refunded, a) <= DueBy(s.log.unstaked, a, s.now)
    ensures At(s.log.refunded, a) + (if a in s.refunds then s.refunds[a].net + s.refunds[a].cpu else 0)
            <= UnstakedBy(s.log.unstaked, a)
  {
    hide UnstakedBy, DueBy, LastUnstaked, Run;
    ReachedIsTimely(s);
    assert TimelyAt(s.refunds, s.log.unstaked, s.log.refunded, s.now, a);
    DueWithin(s.log.unstaked, a, s.now);
  }

  lemma {:induction false} DueWithin(log: seq<Unstaking>, a: Name, now: int)
    requires Logged(log, now)
    ensures DueBy(log, a, now) <= UnstakedBy(log, a)
    decreases |log|
  {
    if log != [] {
      DueWithin(log[..|log| - 1], a, now);
    }
  }

  /**
   A refund is paid exactly if something waits and the account last unstaked three days ago or earlier. All
   that waits goes from the staking account to its owner, and nothing else moves.
   */
  lemma RefundOkIff(s: State, owner: Name)
    requires Reached(s) && owner != STAKE_ACCOUNT
    ensures var r := Step(s, ActRefund(owner));
            && (r.Ok? <==> owner in s.refunds && LastUnstaked(s.log.unstaked, owner).Some?
                           && LastUnstaked(s.log.unstaked, owner).value / 1_000_000 * 1_000_000 + 259_200_000_000 <= s.now)
            && (r.Ok? ==>
                  var paid := s.refunds[owner].net + s.refunds[owner].cpu;
                  && 0 < paid && r.value.refunds == s.refunds - {owner}
                  && forall a :: At(r.value.tokens, a)
                       == At(s.tokens, a) + (if a == owner then paid else 0) - (if a == STAKE_ACCOUNT then paid else 0))
    ensures owner in s.refunds ==>
      LastUnstaked(s.log.unstaked, owner).Some? && 0 < s.refunds[owner].net + s.refunds[owner].cpu
  {
    hide UnstakedBy, DueBy, LastUnstaked, Run, Sum;
    ReachedIsTimely(s);
    assert TimelyAt(s.refunds, s.log.unstaked, s.log.refunded, s.now, owner);
    RefundBacked(s, owner);
  }

  lemma RefundBacked(s: State, owner: Name)
    requires Reached(s)
    ensures owner in s.refunds ==> s.refunds[owner].net + s.refunds[owner].cpu <= At(s.tokens, STAKE_ACCOUNT)
  {
    hide Run, Sum;
    StakeAlwaysConserved(s);
    SumBounds(s.refunds, RefundOf);
    SumBounds(s.delegated, BothOf);
    assert owner in s.refunds ==> RefundOf(owner, s.refunds[owner]) <= Sum(s.refunds, RefundOf);
  }
}
