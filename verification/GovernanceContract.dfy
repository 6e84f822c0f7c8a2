/**
 Voting, election and pay as the contract runs them: tables and counters changed in place, refining
 Voting and Governance. The recursion over proxies is the contract's own; that it returns is a
 precondition, which every healthy chain meets.
 */
module GovernanceContract {
  import opened Basics
  import opened Ledger
  import Spec = Voting
  import opened Voting
  import opened Governance
  import opened VoteActions
  import opened ProxyGraph
  import opened VoteBallots
  import opened GovernanceRuns
  import SortedIndex

  // ---------------------------------------------------------------------------------------------
  // Both loops over ballots stop at the first move that fails.

  lemma {:induction false} ShiftAllStops(s: State, ds: seq<Delta>, cause: Cause, k: nat)
    requires k <= |ds| && ShiftAll(s, ds[..k], cause).Err?
    ensures ShiftAll(s, ds, cause) == ShiftAll(s, ds[..k], cause)
    decreases |ds|
  {
    if k < |ds| {
      assert ds[..|ds| - 1][..k] == ds[..k];
      ShiftAllStops(s, ds[..|ds| - 1], cause, k);
    } else {
      assert ds[..k] == ds;
    }
  }

  lemma ShiftAllNext(s: State, ds: seq<Delta>, cause: Cause, i: nat, f: Shift)
    requires i < |ds| && ShiftAll(s, ds[..i], cause) == Ok(f)
    ensures ShiftAll(s, ds[..i + 1], cause) == Spec.ShiftOne(f, ds[i], cause)
  {
    assert ds[..i + 1][..i] == ds[..i];
  }

  // ---------------------------------------------------------------------------------------------
  // Ballots.

  method CheckBallot(v: Name, proxy: Option<Name>, producers: seq<Name>) returns (ok: bool)
    ensures ok <==> ValidBallot(v, proxy, producers)
  {
    if proxy.Some? {
      return producers == [] && proxy.value != v;
    }
    if |producers| > 30 {
      return false;
    }
    var i := 1;
    while i < |producers|
      invariant 1 <= i && (i <= |producers| || |producers| == 0)
      invariant Ascending(producers[..if i <= |producers| then i else 0])
    {
      if producers[i - 1] >= producers[i] {
        assert producers[i - 1] in producers;
        return false;
      }
      assert forall j :: 0 <= j < i ==> producers[..i][j] <= producers[i - 1];
      i := i + 1;
    }
    if |producers| > 0 {
      assert producers[..|producers|] == producers;
    }
    return true;
  }

  /** What one producer's votes change by. */
  function VotesMoved(p: Name, before: seq<Name>, oldWeight: real, after: seq<Name>, newWeight: real): Delta {
    Delta(p, (if p in after then newWeight else 0.0) - (if p in before then oldWeight else 0.0), p in after)
  }

  lemma NextName(names: seq<Name>, i: nat)
    requires Ascending(names) && i < |names|
    ensures names[i] !in names[..i]
    ensures forall p :: p in names[..i + 1] <==> p in names[..i] || p == names[i]
  {
    assert names[..i + 1] == names[..i] + [names[i]];
  }

  /** The moves collected so far, by producer. */
  ghost predicate Collected(
    deltas: map<Name, Delta>, before: seq<Name>, oldWeight: real, after: seq<Name>, newWeight: real)
  {
    forall p :: (p in deltas <==> p in before || p in after)
                && (p in deltas ==> deltas[p] == VotesMoved(p, before, oldWeight, after, newWeight))
  }

  method TakeVotes(before: seq<Name>, oldWeight: real, newWeight: real) returns (deltas: map<Name, Delta>)
    requires Ascending(before)
    ensures Collected(deltas, before, oldWeight, [], newWeight)
  {
    deltas := map[];
    var i := 0;
    while i < |before|
      invariant 0 <= i <= |before|
      invariant Collected(deltas, before[..i], oldWeight, [], newWeight)
    {
      NextName(before, i);
      deltas := deltas[before[i] := Delta(before[i], -oldWeight, false)];
      i := i + 1;
    }
    assert before[..i] == before;
  }

  method GiveVotes(taken: map<Name, Delta>, before: seq<Name>, oldWeight: real, after: seq<Name>, newWeight: real)
    returns (deltas: map<Name, Delta>)
    requires Ascending(after) && Collected(taken, before, oldWeight, [], newWeight)
    ensures Collected(deltas, before, oldWeight, after, newWeight)
  {
    deltas := taken;
    var i := 0;
    while i < |after|
      invariant 0 <= i <= |after|
      invariant Collected(deltas, before, oldWeight, after[..i], newWeight)
    {
      NextName(after, i);
      var p := after[i];
      var present := if p in deltas then deltas[p].votes else 0.0;
      deltas := deltas[p := Delta(p, present + newWeight, true)];
      i := i + 1;
    }
    assert after[..i] == after;
  }

  /** The moves in the order of the producers' names. */
  method InOrder(deltas: map<Name, Delta>) returns (ds: seq<Delta>)
    ensures var names := SortedIndex.ByName(deltas.Keys);
            |ds| == |names| && forall k :: 0 <= k < |ds| ==> names[k] in deltas && ds[k] == deltas[names[k]]
  {
    hide SortedIndex.ByName;
    var names := SortedIndex.ByName(deltas.Keys);
    ds := [];
    while |ds| < |names|
      invariant |ds| <= |names|
      invariant forall k :: 0 <= k < |ds| ==> names[k] in deltas && ds[k] == deltas[names[k]]
    {
      assert names[|ds|] in names;
      ds := ds + [deltas[names[|ds|]]];
    }
  }

  lemma CollectedNames(deltas: map<Name, Delta>, before: seq<Name>, oldWeight: real, after: seq<Name>, newWeight: real)
    requires Collected(deltas, before, oldWeight, after, newWeight)
    ensures SortedIndex.ByName(deltas.Keys) == BallotNames(before, after)
  {
    hide SortedIndex.ByName;
    assert deltas.Keys == Names(before) + Names(after);
  }

  /** Collects, by producer, the votes an old ballot takes away and a new one gives. */
  method CollectDeltas(before: seq<Name>, oldWeight: real, after: seq<Name>, newWeight: real) returns (ds: seq<Delta>)
    requires Ascending(before) && Ascending(after)
    ensures ds == BallotDeltas(before, oldWeight, after, newWeight)
  {
    hide Ascending, SortedIndex.ByName, BallotNames;
    var taken := TakeVotes(before, oldWeight, newWeight);
    var deltas := GiveVotes(taken, before, oldWeight, after, newWeight);
    CollectedNames(deltas, before, oldWeight, after, newWeight);
    ds := InOrder(deltas);
  }

  /** One level of the recursion over proxies, as the method takes it. */
  lemma PropagateUnfolds(s: State, v: Name, seen: set<Name>)
    requires Propagate(s, v, seen) != Err(Endless)
    ensures v !in s.voters ==> Propagate(s, v, seen) == Err(Broken)
    ensures v in s.voters ==> v !in seen
    ensures v in s.voters && s.voters[v].proxy.Some? && s.voters[v].isProxy ==> Propagate(s, v, seen) == Err(Broken)
    ensures v in s.voters && (s.voters[v].proxy.None? || !s.voters[v].isProxy) ==>
      var weight := VoteWeight(s, s.voters[v]);
      var passed := PassOn(s, v, weight - s.voters[v].weight, seen);
      Propagate(s, v, seen) == if passed.Ok? then Ok(SetWeight(passed.value, v, weight)) else passed
  {
    hide PassOn;
  }

  lemma PassOnUnfolds(s: State, v: Name, delta: real, seen: set<Name>)
    requires v in s.voters && v !in seen
    ensures var r := s.voters[v];
            PassOn(s, v, delta, seen)
            == if -1.0 <= delta <= 1.0 then Ok(s)
               else if r.proxy.None? then Spec.MoveVotes(s, Each(r.producers, delta), PassedOn)
               else if r.proxy.value !in s.voters then Err(Broken)
               else Propagate(AddProxied(s, r.proxy.value, delta), r.proxy.value, seen + {v})
  {
    hide Spec.MoveVotes, Each;
  }

  lemma VotesBesideShare(r: Producer, votes: real, rate: real, now: int, reset: bool)
    ensures UpdateShare(r.(votes := votes), rate, now, reset) == UpdateShare(r, rate, now, reset).(votes := votes)
    ensures Accrued(r.(votes := votes), rate, now) == Accrued(r, rate, now)
  {
  }

  lemma ActivateSparesRows(s: State, r: Voter)
    ensures Activate(s, r).voters == s.voters && Activate(s, r).factor == s.factor
  {
  }

  lemma StoredBallotsAscend(c: Chain)
    requires Healthy(c)
    ensures forall v :: v in c.v.voters ==> Ascending(c.v.voters[v].producers)
  {
    hide Exact, Backed, Acyclic;
    forall v | v in c.v.voters
      ensures Ascending(c.v.voters[v].producers)
    {
      assert BallotFormed(v, c.v.voters[v]);
    }
  }

  lemma ValidAscends(v: Name, proxy: Option<Name>, ballot: seq<Name>)
    requires ValidBallot(v, proxy, ballot)
    ensures Ascending(ballot)
  {
  }

  lemma EmptyAscends()
    ensures Ascending([])
  {
  }

  lemma ElectedByName(producers: map<Name, Producer>)
    ensures var walk := SortedIndex.Walk(VoteKeys(producers));
            (forall p :: p in walk ==> p in producers)
            && Elected(producers) == SortedIndex.ByName(Names(walk[..Cut(producers, walk, 0)]))
  {
    hide SortedIndex.ByName, VoteKeys, Cut;
    ElectedLength(producers);
  }

  class GovernanceSystem {
    // _voters, _producers and _producers2
    var voters: map<Name, Voter>
    var producers: map<Name, Producer>
    // _gstate, _gstate2 and _gstate3
    var totalWeight: real
    var activatedStake: int
    var threshTime: int
    var totalShare: real
    var rate: real
    var shareTime: int
    var pay: Governance.Pay
    // the chain
    var now: int
    var factor: real
    ghost var inexact: bool

    ghost function Votes(): State
      reads this
    {
      State(voters, producers, totalWeight, activatedStake, threshTime, totalShare, rate, shareTime, now, factor, inexact)
    }

    ghost function Value(): Chain
      reads this
    {
      Chain(Votes(), pay)
    }

    ghost predicate Refines(r: Result<State>, outcome: Outcome)
      reads this
    {
      match r
      case Ok(s) => outcome == Done && Votes() == s
      case Err(e) => outcome == Aborted(e)
    }

    constructor (now: int, factor: real, supply: int, tokens: Tokens)
      ensures Value() == Genesis(now, factor, supply, tokens)
    {
      voters, producers, totalWeight, activatedStake, threshTime := map[], map[], 0.0, 0, 0;
      totalShare, rate, shareTime := 0.0, 0.0, 0;
      pay := Governance.Pay(0, 0, 0, 0, 0, 0, 0, supply, tokens);
      this.now, this.factor, inexact := now, factor, false;
    }

    // -------------------------------------------------------------------------------------------
    // Votepay shares.

    method UpdateTotalVotepayShare(extra: real, rateDelta: real) returns (total: real)
      modifies this`totalShare, this`rate, this`shareTime
      ensures Votes() == UpdateTotalShare(old(Votes()), extra, rateDelta) && total == totalShare
    {
      hide Growth;
      var delta := 0.0;
      if now > shareTime {
        delta := Growth(rate, now - shareTime);
      }
      delta := delta + extra;
      if delta < 0.0 && totalShare < -delta {
        totalShare := 0.0;
      } else {
        totalShare := totalShare + delta;
      }
      if rateDelta < 0.0 && rate < -rateDelta {
        rate := 0.0;
      } else {
        rate := rate + rateDelta;
      }
      shareTime := now;
      total := totalShare;
    }

    method UpdateProducerVotepayShare(p: Name, sharesRate: real, reset: bool) returns (share: real)
      requires p in producers
      modifies this`producers
      ensures share == Accrued(old(producers[p]), sharesRate, now)
      ensures producers == old(producers)[p := UpdateShare(old(producers[p]), sharesRate, now, reset)]
    {
      hide Growth;
      var prod := producers[p];
      var delta := 0.0;
      if sharesRate > 0.0 && now > prod.updated {
        delta := Growth(sharesRate, now - prod.updated);
      }
      share := prod.share + delta;
      producers := producers[p := prod.(share := if reset then 0.0 else share, updated := now)];
    }

    // -------------------------------------------------------------------------------------------
    // Moving votes.

    /** What one producer's row, and the accumulators, change by. */
    method ShiftRow(d: Delta, cause: Cause, inactive: real, rateDelta: real) returns (inactiveShare: real, changeRate: real)
      requires d.producer in producers
      modifies this`producers, this`totalWeight
      ensures Shift(Votes(), inactiveShare, changeRate) == ShiftProducer(Shift(old(Votes()), inactive, rateDelta), d, cause)
    {
      hide Growth, UpdateShare, Accrued;
      inactiveShare, changeRate := inactive, rateDelta;
      var prod := producers[d.producer];
      var initVotes := prod.votes;
      var votes := prod.votes + d.votes;
      if cause.Cast? && votes < 0.0 {
        votes := 0.0;
      }
      var crossed := prod.lastClaim + THREE_DAYS <= now;
      var updatedAfter := prod.lastClaim + THREE_DAYS <= prod.updated;
      producers := producers[d.producer := prod.(votes := votes)];
      VotesBesideShare(prod, votes, if updatedAfter then 0.0 else initVotes, now, crossed && !updatedAfter);
      totalWeight := totalWeight + d.votes;
      var share := UpdateProducerVotepayShare(d.producer, if updatedAfter then 0.0 else initVotes, crossed && !updatedAfter);
      if !crossed {
        changeRate := changeRate + d.votes;
      } else if !updatedAfter {
        inactiveShare := inactiveShare + share;
        changeRate := changeRate - initVotes;
      }
    }

    method MoveOne(d: Delta, cause: Cause, inactive: real, rateDelta: real)
      returns (outcome: Outcome, inactiveShare: real, changeRate: real)
      modifies this`producers, this`totalWeight
      ensures match Spec.ShiftOne(Shift(old(Votes()), inactive, rateDelta), d, cause)
              case Ok(f) => outcome == Done && f == Shift(Votes(), inactiveShare, changeRate)
              case Err(e) => outcome == Aborted(e)
    {
      hide ShiftProducer;
      outcome, inactiveShare, changeRate := Done, inactive, rateDelta;
      if d.producer in producers {
        :- Check(cause != Cast(true) || producers[d.producer].active || !d.isNew, Rejected);
        inactiveShare, changeRate := ShiftRow(d, cause, inactive, rateDelta);
      } else if cause == PassedOn {
        outcome := Aborted(Broken);
      } else {
        :- Check(!d.isNew, if cause == Cast(true) then Rejected else Broken);
      }
    }

    /** The loop over producers of `update_votes` and of `propagate_weight_change`. */
    method MoveVotes(ds: seq<Delta>, cause: Cause) returns (outcome: Outcome)
      modifies this`producers, this`totalWeight, this`totalShare, this`rate, this`shareTime
      ensures Refines(Spec.MoveVotes(old(Votes()), ds, cause), outcome)
    {
      hide Spec.ShiftOne, UpdateTotalShare;
      outcome := Done;
      var inactive, rateDelta := 0.0, 0.0;
      var i := 0;
      while i < |ds|
        invariant 0 <= i <= |ds| && outcome == Done
        invariant ShiftAll(old(Votes()), ds[..i], cause) == Ok(Shift(Votes(), inactive, rateDelta))
      {
        ShiftAllNext(old(Votes()), ds, cause, i, Shift(Votes(), inactive, rateDelta));
        ghost var next := ShiftAll(old(Votes()), ds[..i + 1], cause);
        if next.Err? {
          ShiftAllStops(old(Votes()), ds, cause, i + 1);
        }
        inactive, rateDelta :- MoveOne(ds[i], cause, inactive, rateDelta);
        i := i + 1;
      }
      assert ds[..i] == ds;
      var _ := UpdateTotalVotepayShare(-inactive, rateDelta);
    }

    /** Adds to what an account carries as a proxy. */
    method Carry(p: Name, delta: real)
      requires p in voters
      modifies this`voters
      ensures Votes() == AddProxied(old(Votes()), p, delta)
    {
      voters := voters[p := voters[p].(proxied := voters[p].proxied + delta)];
    }

    method PropagateWeightChange(v: Name, ghost seen: set<Name>) returns (outcome: Outcome)
      requires Propagate(Votes(), v, seen) != Err(Endless)
      modifies this`voters, this`producers, this`totalWeight, this`totalShare, this`rate, this`shareTime, this`inexact
      ensures Refines(Propagate(old(Votes()), v, seen), outcome)
      decreases voters.Keys - seen
    {
      hide Spec.MoveVotes, Each, Propagate, PassOn, Stake2Vote, Distorted;
      outcome := Done;
      PropagateUnfolds(Votes(), v, seen);
      :- Check(v in voters, Broken);
      var voter := voters[v];
      :- Check(voter.proxy.None? || !voter.isProxy, Broken);
      var weight := Stake2Vote(voter.staked, factor);
      if voter.isProxy {
        weight := weight + voter.proxied;
      }
      assert weight == VoteWeight(Votes(), voter);
      var delta := weight - voter.weight;
      PassOnUnfolds(Votes(), v, delta, seen);
      if delta > 1.0 || delta < -1.0 {
        if voter.proxy.Some? {
          :- Check(voter.proxy.value in voters, Broken);
          Carry(voter.proxy.value, delta);
          :- PropagateWeightChange(voter.proxy.value, seen + {v});
        } else {
          :- MoveVotes(Each(voter.producers, delta), PassedOn);
        }
      }
      assert PassOn(old(Votes()), v, delta, seen) == Ok(Votes());
      inexact := inexact || Distorted(voters[v], weight);
      voters := voters[v := voters[v].(weight := weight)];
    }

    // -------------------------------------------------------------------------------------------
    // Casting votes.

    method ActivateStake(v: Name)
      requires v in voters
      modifies this`activatedStake, this`threshTime
      ensures Votes() == Activate(old(Votes()), voters[v])
    {
      if voters[v].weight <= 0.0 {
        activatedStake := activatedStake + voters[v].staked;
        if activatedStake >= MIN_ACTIVATED_STAKE && threshTime == 0 {
          threshTime := now;
        }
      }
    }

    method UndoVote(v: Name) returns (outcome: Outcome)
      requires v in voters && Undo(Votes(), v, voters[v]) != Err(Endless)
      modifies this`voters, this`producers, this`totalWeight, this`totalShare, this`rate, this`shareTime, this`inexact
      ensures Refines(Undo(old(Votes()), v, old(voters[v])), outcome)
    {
      hide Propagate;
      outcome := Done;
      var voter := voters[v];
      if voter.weight > 0.0 && voter.proxy.Some? {
        :- Check(voter.proxy.value in voters, Broken);
        Carry(voter.proxy.value, -voter.weight);
        :- PropagateWeightChange(voter.proxy.value, {v});
      }
    }

    method CastThrough(v: Name, proxy: Option<Name>, weight: real, voting: bool) returns (outcome: Outcome)
      requires CastProxy(Votes(), v, proxy, weight, voting) != Err(Endless)
      modifies this`voters, this`producers, this`totalWeight, this`totalShare, this`rate, this`shareTime, this`inexact
      ensures Refines(CastProxy(old(Votes()), v, proxy, weight, voting), outcome)
    {
      hide Propagate;
      outcome := Done;
      if proxy.Some? {
        :- Check(proxy.value in voters, if voting then Rejected else Broken);
        :- Check(!voting || voters[proxy.value].isProxy, Rejected);
        if weight >= 0.0 {
          Carry(proxy.value, weight);
          :- PropagateWeightChange(proxy.value, {v});
        }
      }
    }

    method RecastVotes(voter: Voter, weight: real, proxy: Option<Name>, ballot: seq<Name>, voting: bool) returns (outcome: Outcome)
      requires Ascending(voter.producers) && Ascending(ballot)
      modifies this`producers, this`totalWeight, this`totalShare, this`rate, this`shareTime
      ensures Refines(Spec.MoveVotes(old(Votes()), Recast(voter, weight, proxy, ballot), Cast(voting)), outcome)
    {
      hide Spec.MoveVotes, BallotDeltas, Ascending;
      outcome := Done;
      EmptyAscends();
      var ds := CollectDeltas(if voter.weight > 0.0 && voter.proxy.None? then voter.producers else [], voter.weight,
                              if weight >= 0.0 && proxy.None? then ballot else [], weight);
      :- MoveVotes(ds, Cast(voting));
    }

    method UpdateVotes(v: Name, proxy: Option<Name>, ballot: seq<Name>, voting: bool) returns (outcome: Outcome)
      requires Spec.UpdateVotes(Votes(), v, proxy, ballot, voting) != Err(Endless)
      requires v in voters ==> Ascending(voters[v].producers)
      modifies this`voters, this`producers, this`totalWeight, this`totalShare, this`rate, this`shareTime, this`inexact,
               this`activatedStake, this`threshTime
      ensures Refines(Spec.UpdateVotes(old(Votes()), v, proxy, ballot, voting), outcome)
    {
      hide Undo, CastProxy, Spec.MoveVotes, Recast, Activate, ValidBallot, Stake2Vote;
      outcome := Done;
      var invalid := if voting then Rejected else Broken;
      var ok := CheckBallot(v, proxy, ballot);
      :- Check(ok, invalid);
      :- Check(v in voters, invalid);
      var voter := voters[v];
      :- Check(proxy.None? || !voter.isProxy, invalid);
      ActivateStake(v);
      ActivateSparesRows(old(Votes()), voter);
      var weight := Stake2Vote(voter.staked, factor);
      if voter.isProxy {
        weight := weight + voter.proxied;
      }
      assert weight == VoteWeight(old(Votes()), voter);
      ValidAscends(v, proxy, ballot);
      :- UndoVote(v);
      :- CastThrough(v, proxy, weight, voting);
      :- RecastVotes(voter, weight, proxy, ballot, voting);
      :- Check(v in voters, Broken);
      voters := voters[v := voters[v].(weight := weight, producers := ballot, proxy := proxy)];
    }

    // -------------------------------------------------------------------------------------------
    // Actions on votes.

    method VoteProducer(v: Name, proxy: Option<Name>, ballot: seq<Name>, rexDelta: int, holdsRex: bool) returns (outcome: Outcome)
      requires Spec.VoteProducer(Votes(), v, proxy, ballot, rexDelta, holdsRex) != Err(Endless)
      requires v in voters ==> Ascending(voters[v].producers)
      modifies this
      ensures Refines(Spec.VoteProducer(old(Votes()), v, proxy, ballot, rexDelta, holdsRex), outcome) && pay == old(pay)
    {
      hide Spec.UpdateVotes;
      outcome := Done;
      if v in voters {
        var staked := voters[v].staked + rexDelta;
        voters := voters[v := voters[v].(staked := staked)];
      }
      :- UpdateVotes(v, proxy, ballot, true);
      :- Check(!holdsRex || proxy.Some? || 21 <= |ballot|, Rejected);
    }

    method UpdateVotingPower(v: Name, delta: int) returns (outcome: Outcome)
      requires ChangeStake(Votes(), v, delta) != Err(Endless)
      requires v in voters ==> Ascending(voters[v].producers)
      modifies this
      ensures Refines(ChangeStake(old(Votes()), v, delta), outcome) && pay == old(pay)
    {
      hide Spec.UpdateVotes;
      outcome := Done;
      if v !in voters {
        voters := voters[v := NewVoter(delta, false)];
      } else {
        voters := voters[v := voters[v].(staked := voters[v].staked + delta)];
      }
      :- Check(0 <= voters[v].staked, Rejected);
      if |voters[v].producers| > 0 || voters[v].proxy.Some? {
        :- UpdateVotes(v, voters[v].proxy, voters[v].producers, false);
      }
    }

    method RegProxy(v: Name, isProxy: bool) returns (outcome: Outcome)
      requires Spec.RegProxy(Votes(), v, isProxy) != Err(Endless)
      modifies this
      ensures Refines(Spec.RegProxy(old(Votes()), v, isProxy), outcome) && pay == old(pay)
    {
      hide Propagate;
      outcome := Done;
      if v in voters {
        :- Check(isProxy != voters[v].isProxy, Rejected);
        :- Check(!isProxy || voters[v].proxy.None?, Rejected);
        voters := voters[v := voters[v].(isProxy := isProxy)];
        :- PropagateWeightChange(v, {});
      } else {
        voters := voters[v := NewVoter(0, isProxy)];
      }
    }

    method RegProducer(p: Name)
      modifies this`producers
      ensures Votes() == Spec.RegProducer(old(Votes()), p)
    {
      if p in producers {
        var prod := producers[p].(active := true);
        if prod.lastClaim == 0 {
          prod := prod.(lastClaim := now);
        }
        producers := producers[p := prod];
      } else {
        producers := producers[p := Producer(0.0, true, 0, now, 0.0, now)];
      }
    }

    method UnregProducer(p: Name) returns (outcome: Outcome)
      modifies this`producers
      ensures Refines(Deactivate(old(Votes()), p), outcome)
    {
      outcome := Done;
      :- Check(p in producers, Rejected);
      producers := producers[p := producers[p].(active := false)];
    }

    // -------------------------------------------------------------------------------------------
    // Election and pay.

    /** Walks the index by votes from the front until 21 are found or one is met that cannot be elected. */
    method TopProducers() returns (top: seq<Name>)
      ensures top == Elected(producers)
    {
      ElectedLength(producers);
      var idx := SortedIndex.Walk(VoteKeys(producers));
      hide VoteKeys, SortedIndex.Walk;
      var i := 0;
      while i < |idx| && i < 21
        invariant 0 <= i <= |idx| && i <= 21
        invariant Cut(producers, idx, 0) == Cut(producers, idx, i)
      {
        assert idx[i] in idx;
        if producers[idx[i]].votes <= 0.0 || !producers[idx[i]].active {
          break;
        }
        i := i + 1;
      }
      top := SortedIndex.ByName(Names(idx[..i]));
      ElectedByName(producers);
    }

    method UpdateElectedProducers(slot: nat, accepted: bool)
      modifies this`pay
      ensures Value() == UpdateElected(old(Value()), slot, accepted)
    {
      hide Elected, Cut;
      pay := pay.(lastSchedule := slot);
      var top := TopProducers();
      if |top| < pay.scheduleSize {
        return;
      }
      if accepted {
        pay := pay.(scheduleSize := |top|);
      }
    }

    method OnBlock(slot: nat, producer: Name, accepted: bool)
      modifies this`pay, this`producers
      ensures Value() == Governance.OnBlock(old(Value()), slot, producer, accepted)
    {
      hide UpdateElected;
      if activatedStake < MIN_ACTIVATED_STAKE {
        return;
      }
      if pay.lastFill == 0 {
        pay := pay.(lastFill := now);
      }
      if producer in producers {
        pay := pay.(unpaid := pay.unpaid + 1);
        producers := producers[producer := producers[producer].(unpaid := producers[producer].unpaid + 1)];
      }
      if (slot - pay.lastSchedule) % 0x1_0000_0000 > 120 {
        UpdateElectedProducers(slot, accepted);
      }
    }

    method Transfer(from: Name, to: Name, quantity: int) returns (outcome: Outcome)
      modifies this`pay
      ensures match Ledger.Transfer(old(pay.tokens), from, to, quantity, Broken)
              case Ok(t) => outcome == Done && pay == old(pay).(tokens := t)
              case Err(e) => outcome == Aborted(e)
    {
      outcome := Done;
      :- Check(from != to && quantity > 0, Rejected);
      :- Check(quantity <= At(pay.tokens, from), Broken);
      pay := pay.(tokens := pay.tokens[from := At(pay.tokens, from) - quantity]);
      pay := pay.(tokens := pay.tokens[to := At(pay.tokens, to) + quantity]);
    }

    method IssueTo(to: Name, quantity: int) returns (outcome: Outcome)
      modifies this`pay
      ensures match Issue(old(pay.tokens), to, quantity)
              case Ok(t) => outcome == Done && pay == old(pay).(tokens := t)
              case Err(e) => outcome == Aborted(e)
    {
      outcome := Done;
      :- Check(quantity > 0, Rejected);
      pay := pay.(tokens := pay.tokens[to := At(pay.tokens, to) + quantity]);
    }

    /** Issues inflation since the last fill and splits it. */
    method FillBuckets() returns (outcome: Outcome)
      modifies this`pay
      ensures match Refill(old(pay), now)
              case Ok(p) => outcome == Done && pay == p
              case Err(e) => outcome == Aborted(e)
    {
      hide Ledger.Transfer, Issue, NewTokens;
      outcome := Done;
      if now > pay.lastFill && pay.lastFill > 0 {
        var issued := NewTokens(pay.supply, now - pay.lastFill);
        var toProducers := issued / 5;
        var toBlocks := toProducers / 4;
        var toVotes := toProducers - toBlocks;
        :- IssueTo(SYSTEM, issued);
        :- Transfer(SYSTEM, SAVING_ACCOUNT, issued - toProducers);
        :- Transfer(SYSTEM, BPAY_ACCOUNT, toBlocks);
        :- Transfer(SYSTEM, VPAY_ACCOUNT, toVotes);
        pay := pay.(supply := pay.supply + issued, perVote := pay.perVote + toVotes, perBlock := pay.perBlock + toBlocks, lastFill := now);
      }
    }

    /** Pay by votes, once the claimant's share is taken and the global share brought up to date. */
    method VotePay(prod: Producer, share: real) returns (votePay: int)
      modifies this`totalShare, this`rate, this`shareTime
      ensures var s := if pay.revision > 0 then UpdateTotalShare(old(Votes()), 0.0, 0.0) else old(Votes());
              Votes() == s && votePay == VotePayment(pay, s, prod, share, now)
    {
      hide UpdateTotalShare, PartOf;
      votePay := 0;
      if pay.revision > 0 {
        var total := UpdateTotalVotepayShare(0.0, 0.0);
        if total > 0.0 && now < prod.lastClaim + THREE_DAYS {
          votePay := PartOf(pay.perVote, share, total);
          if votePay > pay.perVote {
            votePay := pay.perVote;
          }
        }
      } else if totalWeight > 0.0 {
        votePay := PartOf(pay.perVote, prod.votes, totalWeight);
      }
      if votePay < MIN_DAILY_PAY {
        votePay := 0;
      }
    }

    /** A claim's pay by votes; the claimant's share is taken off the tables. */
    method ClaimShare(owner: Name) returns (votePay: int, share: real)
      requires owner in producers
      modifies this`producers, this`totalShare, this`rate, this`shareTime
      ensures votePay == ClaimVotePay(old(Votes()), pay, owner)
      ensures share == ClaimedShare(old(producers[owner]), now)
      ensures producers == old(producers)[owner := ClaimedRow(old(producers[owner]), now)]
      ensures Votes() == AtClaim(old(Votes()), owner, pay.revision > 0)
    {
      hide UpdateTotalShare, Accrued, UpdateShare, VotePayment;
      var prod := producers[owner];
      share := UpdateProducerVotepayShare(owner, if Counted(prod) then prod.votes else 0.0, true);
      votePay := VotePay(prod, share);
    }

    /** All that a claim does to the voting tables. */
    method TakeClaim(owner: Name) returns (votePay: int)
      requires owner in producers
      modifies this`producers, this`totalShare, this`rate, this`shareTime
      ensures votePay == ClaimVotePay(old(Votes()), pay, owner)
      ensures Votes() == AfterClaim(old(Votes()), owner, pay.revision > 0)
    {
      hide UpdateTotalShare, ClaimVotePay, ClaimedShare, UpdateShare, AtClaim;
      var prod := producers[owner];
      var share: real;
      votePay, share := ClaimShare(owner);
      var _ := UpdateTotalVotepayShare(-share, if Counted(prod) then 0.0 else prod.votes);
      producers := producers[owner := producers[owner].(lastClaim := now, unpaid := 0)];
    }

    method PayTo(from: Name, to: Name, amount: int) returns (outcome: Outcome)
      modifies this`pay
      ensures match PayOut(old(pay.tokens), from, to, amount)
              case Ok(t) => outcome == Done && pay == old(pay).(tokens := t)
              case Err(e) => outcome == Aborted(e)
    {
      hide Ledger.Transfer;
      outcome := Done;
      if amount > 0 {
        outcome := Transfer(from, to, amount);
      }
    }

    method ClaimRewards(owner: Name) returns (outcome: Outcome)
      modifies this
      ensures match Governance.ClaimRewards(old(Value()), owner)
              case Ok(c) => outcome == Done && Value() == c
              case Err(e) => outcome == Aborted(e)
    {
      hide Growth, UpdateTotalShare, Refill, ClaimVotePay, ClaimedShare, Ledger.Transfer, UpdateShare, BlockPay, PayOut, AfterClaim;
      outcome := Done;
      :- Check(owner in producers, Rejected);
      var prod := producers[owner];
      :- Check(prod.active, Rejected);
      :- Check(activatedStake >= MIN_ACTIVATED_STAKE, Rejected);
      :- Check(now - prod.lastClaim > ONE_DAY, Rejected);
      :- FillBuckets();
      var blockPay := BlockPay(pay, prod);
      var votePay := TakeClaim(owner);
      :- Check(prod.unpaid <= pay.unpaid, Broken);
      pay := pay.(perVote := pay.perVote - votePay, perBlock := pay.perBlock - blockPay, unpaid := pay.unpaid - prod.unpaid);
      :- PayTo(BPAY_ACCOUNT, owner, blockPay);
      :- PayTo(VPAY_ACCOUNT, owner, votePay);
    }

    // -------------------------------------------------------------------------------------------
    // Actions on the chain.

    /** Votes: the stored ballots are in order, and passing weight on returns. */
    method ActOnVotes(a: Action) returns (outcome: Outcome)
      requires a.ActVoteProducer? || a.ActChangeStake? || a.ActRegProxy? || a.ActRegProducer? || a.ActDeactivate?
      requires Step(Value(), a) != Err(Endless)
      requires forall v :: v in voters ==> Ascending(voters[v].producers)
      modifies this
      ensures match Step(old(Value()), a)
              case Ok(c) => outcome == Done && Value() == c
              case Err(e) => outcome == Aborted(e)
    {
      hide Spec.VoteProducer, ChangeStake, Spec.RegProxy, Spec.RegProducer, Deactivate, Governance.ClaimRewards,
           Governance.OnBlock, Ascending;
      outcome := Done;
      match a
      case ActVoteProducer(voter, proxy, ballot, rexDelta, holdsRex) =>
        outcome := VoteProducer(voter, proxy, ballot, rexDelta, holdsRex);
      case ActChangeStake(voter, delta) => outcome := UpdateVotingPower(voter, delta);
      case ActRegProxy(voter, isProxy) => outcome := RegProxy(voter, isProxy);
      case ActRegProducer(producer) => RegProducer(producer);
      case ActDeactivate(producer) => outcome := UnregProducer(producer);
    }

    /** Blocks, pay, and time. */
    method ActOnChain(a: Action) returns (outcome: Outcome)
      requires a.ActClaimRewards? || a.ActOnBlock? || a.ActUpdateRevision? || a.ActTime?
      modifies this
      ensures match Step(old(Value()), a)
              case Ok(c) => outcome == Done && Value() == c
              case Err(e) => outcome == Aborted(e)
    {
      hide Spec.VoteProducer, ChangeStake, Spec.RegProxy, Spec.RegProducer, Deactivate, Governance.ClaimRewards,
           Governance.OnBlock;
      outcome := Done;
      match a
      case ActClaimRewards(producer) => outcome := ClaimRewards(producer);
      case ActOnBlock(producer, slot, accepted) => OnBlock(slot, producer, accepted);
      case ActUpdateRevision(revision) =>
        :- Check(revision == pay.revision + 1 && revision <= 1, Rejected);
        pay := pay.(revision := revision);
      case ActTime(time, perStake) =>
        :- Check(now <= time && perStake >= 0.0, Rejected);
        now, factor := time, perStake;
    }

    /** What the chain does to the voting tables when an action aborts. */
    method RestoreVotes(voters: map<Name, Voter>, producers: map<Name, Producer>, totalWeight: real, activatedStake: int,
                        threshTime: int, ghost inexact: bool)
      modifies this`voters, this`producers, this`totalWeight, this`activatedStake, this`threshTime, this`inexact
      ensures this.voters == voters && this.producers == producers && this.totalWeight == totalWeight
      ensures this.activatedStake == activatedStake && this.threshTime == threshTime && this.inexact == inexact
    {
      this.voters, this.producers, this.totalWeight := voters, producers, totalWeight;
      this.activatedStake, this.threshTime := activatedStake, threshTime;
      this.inexact := inexact;
    }

    /** An action on the chain: an abort undoes it. The recursion over proxies always returns. */
    method Perform(a: Action) returns (outcome: Outcome)
      requires Healthy(Value()) && Legal(a)
      modifies this
      ensures Healthy(Value())
      ensures outcome == Aborted(Broken) <==> Fails(old(Value()), a)
      ensures outcome != Aborted(Endless)
      ensures outcome == Done ==> Step(old(Value()), a) == Ok(Value())
      ensures outcome != Done ==> Value() == old(Value()) && Step(old(Value()), a).Err?
    {
      hide Step, Healthy, Legal, Fails, Registered, Ascending;
      StepKeepsHealth(Value(), a);
      StoredBallotsAscend(Value());
      ghost var exact := inexact;
      var voters0, producers0, totalWeight0, activatedStake0, threshTime0 :=
        voters, producers, totalWeight, activatedStake, threshTime;
      var totalShare0, rate0, shareTime0, pay0, now0, factor0 := totalShare, rate, shareTime, pay, now, factor;
      if a.ActVoteProducer? || a.ActChangeStake? || a.ActRegProxy? || a.ActRegProducer? || a.ActDeactivate? {
        outcome := ActOnVotes(a);
      } else {
        outcome := ActOnChain(a);
      }
      ghost var r := Step(old(Value()), a);
      assert r.Err? ==> outcome == Aborted(r.error);
      if outcome != Done {
        RestoreVotes(voters0, producers0, totalWeight0, activatedStake0, threshTime0, exact);
        totalShare, rate, shareTime, pay, now, factor := totalShare0, rate0, shareTime0, pay0, now0, factor0;
      }
    }
  }
}
