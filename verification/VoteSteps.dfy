/** Single votes spelled out: what casting, passing on and taking back does to the tables. */
module VoteSteps {
  import opened Basics
  import opened Voting
  import opened VotePay
  import opened ProxyGraph
  import opened VoteBallots
  import opened VoteWeights
  import opened VoteBlocks
  import SortedIndex

  /** Every named producer gets the same change of votes, and of the tables only the voters change otherwise. */
  ghost predicate Gives(s: State, t: State, names: seq<Name>, change: real) {
    && OnlyVotesMove(
         s.(voters := t.voters, activatedStake := t.activatedStake, threshTime := t.threshTime, inexact := t.inexact), t)
    && t.totalWeight == s.totalWeight + |names| as real * change
    && (forall p :: p in s.producers ==>
          t.producers[p].votes == s.producers[p].votes + (if p in names then change else 0.0))
  }

  lemma GivesNothing(s: State, t: State)
    requires t == s.(voters := t.voters, activatedStake := t.activatedStake, threshTime := t.threshTime, inexact := t.inexact)
    ensures Gives(s, t, [], 0.0)
    ensures forall change :: Gives(s, t, [], change)
  {
  }

  function Evenly(names: seq<Name>, change: real, isNew: bool): seq<Delta> {
    seq(|names|, i requires 0 <= i < |names| => Delta(names[i], change, isNew))
  }

  /** All named producers are there, may be given votes, and have them to give. */
  predicate CanGive(s: State, names: seq<Name>, change: real) {
    forall p :: p in names ==> p in s.producers && s.producers[p].active && s.producers[p].votes + change >= 0.0
  }

  lemma {:induction false} EvenlyMoves(s: State, names: seq<Name>, change: real, isNew: bool, cause: Cause)
    requires Ascending(names) && AllRegistered(s.producers, names) && (cause.Cast? ==> CanGive(s, names, change))
    ensures var f := ShiftAll(s, Evenly(names, change, isNew), cause);
            f.Ok? && Gives(s, f.value.s, names, change) && f.value.s.voters == s.voters && f.value.s.inexact == s.inexact
            && f.value.s.activatedStake == s.activatedStake
    decreases |names|
  {
    hide ShiftProducer, Gives;
    if names == [] {
      GivesNothing(s, s);
    } else {
      var n := |names| - 1;
      assert Evenly(names, change, isNew)[..n] == Evenly(names[..n], change, isNew);
      assert forall p :: p in names[..n] ==> p in names;
      EvenlyMoves(s, names[..n], change, isNew, cause);
      var f := ShiftAll(s, Evenly(names[..n], change, isNew), cause).value;
      assert names[n] in names;
      NextGiven(s, f, names, change, isNew, cause);
    }
  }

  lemma NextGiven(s: State, f: Shift, names: seq<Name>, change: real, isNew: bool, cause: Cause)
    requires names != [] && Ascending(names)
    requires var n := |names| - 1;
             && names[n] in s.producers && Gives(s, f.s, names[..n], change)
             && f.s.voters == s.voters && f.s.inexact == s.inexact && f.s.activatedStake == s.activatedStake
             && (cause.Cast? ==> s.producers[names[n]].active && s.producers[names[n]].votes + change >= 0.0)
    ensures var n := |names| - 1;
            var d := Delta(names[n], change, isNew);
            && ShiftOne(f, d, cause) == Ok(ShiftProducer(f, d, cause))
            && Gives(s, ShiftProducer(f, d, cause).s, names, change)
            && ShiftProducer(f, d, cause).s.voters == s.voters && ShiftProducer(f, d, cause).s.inexact == s.inexact
            && ShiftProducer(f, d, cause).s.activatedStake == s.activatedStake
  {
    hide ShiftProducer;
    var n := |names| - 1;
    var d := Delta(names[n], change, isNew);
    assert names[n] !in names[..n];
    ShiftProducerFrame(f, d, cause);
    ShiftedVotes(f, d, cause);
    OneMoreGiven(s, f.s, ShiftProducer(f, d, cause).s, names, change);
  }

  lemma ShiftedVotes(f: Shift, d: Delta, cause: Cause)
    requires d.producer in f.s.producers && (cause.Cast? ==> f.s.producers[d.producer].votes + d.votes >= 0.0)
    ensures var t := ShiftProducer(f, d, cause).s;
            && t.producers.Keys == f.s.producers.Keys && t.totalWeight == f.s.totalWeight + d.votes
            && forall p :: p in f.s.producers ==>
                 t.producers[p].votes == f.s.producers[p].votes + (if p == d.producer then d.votes else 0.0)
  {
    hide Growth;
  }

  lemma OneMoreGiven(s: State, t: State, u: State, names: seq<Name>, change: real)
    requires names != [] && Ascending(names) && names[|names| - 1] in s.producers
    requires Gives(s, t, names[..|names| - 1], change) && OnlyVotesMove(t, u) && u.totalWeight == t.totalWeight + change
    requires forall p :: p in t.producers ==>
               u.producers[p].votes == t.producers[p].votes + (if p == names[|names| - 1] then change else 0.0)
    ensures Gives(s, u, names, change)
  {
    var n := |names| - 1;
    assert names[n] !in names[..n];
    assert forall p :: p in names <==> p in names[..n] || p == names[n];
    assert |names| as real * change == n as real * change + change;
  }

  lemma UpdatedShareGives(s: State, t: State, names: seq<Name>, change: real, extra: real, rateDelta: real)
    requires Gives(s, t, names, change)
    ensures Gives(s, UpdateTotalShare(t, extra, rateDelta), names, change)
  {
    hide Growth;
  }

  lemma MoveEvenly(s: State, names: seq<Name>, change: real, isNew: bool, cause: Cause)
    requires Ascending(names) && AllRegistered(s.producers, names) && (cause.Cast? ==> CanGive(s, names, change))
    ensures var r := MoveVotes(s, Evenly(names, change, isNew), cause);
            && r.Ok? && Gives(s, r.value, names, change)
            && r.value.voters == s.voters && r.value.inexact == s.inexact && r.value.activatedStake == s.activatedStake
  {
    hide ShiftAll, Gives, Growth;
    EvenlyMoves(s, names, change, isNew, cause);
    var f := ShiftAll(s, Evenly(names, change, isNew), cause).value;
    UpdatedShareGives(s, f.s, names, change, -f.inactive, f.rate);
  }

  // ---------------------------------------------------------------------------------------------
  // Ballots.

  /** A set of names is in order in one way only. */
  lemma {:induction false} OneOrder(a: seq<Name>, b: seq<Name>)
    requires Ascending(a) && Ascending(b) && forall p :: p in a <==> p in b
    ensures a == b
    decreases |a|
  {
    if a == [] || b == [] {
      SortedIndex.SomeName(a);
      SortedIndex.SomeName(b);
    } else {
      LastIsGreatest(a, b);
      LastIsGreatest(b, a);
      var a0, b0 := a[..|a| - 1], b[..|b| - 1];
      assert forall p :: p in a0 <==> p in a && p != a[|a| - 1];
      assert forall p :: p in b0 <==> p in b && p != b[|b| - 1];
      OneOrder(a0, b0);
    }
  }

  lemma LastIsGreatest(a: seq<Name>, b: seq<Name>)
    requires Ascending(b) && a != [] && b != [] && forall p :: p in a ==> p in b
    ensures a[|a| - 1] <= b[|b| - 1]
  {
    assert a[|a| - 1] in a;
    var i :| 0 <= i < |b| && b[i] == a[|a| - 1];
  }

  /** A ballot cast for the first time, or again. */
  lemma SameBallotDeltas(before: seq<Name>, oldWeight: real, after: seq<Name>, newWeight: real)
    requires Ascending(after) && (before == [] || before == after)
    ensures BallotDeltas(before, oldWeight, after, newWeight)
            == Evenly(after, newWeight - (if before == [] then 0.0 else oldWeight), true)
  {
    hide BallotNames, Ascending;
    var names := BallotNames(before, after);
    OneOrder(names, after);
    assert before == [] ==> forall i :: 0 <= i < |names| ==> names[i] !in before;
    assert before != [] ==> forall i :: 0 <= i < |names| ==> names[i] in before;
  }

  // ---------------------------------------------------------------------------------------------
  // Votes.

  /** What an account's stake adds to what is activated: its first vote, or one after a vote of no weight, counts it again. */
  function Activated(r: Voter): int {
    if r.weight > 0.0 then 0 else r.staked
  }

  /** A state after one vote: the voter table as given, and producers given the same change. */
  ghost predicate After(s: State, t: State, voters: map<Name, Voter>, names: seq<Name>, change: real, activated: int) {
    t.voters == voters && Gives(s, t, names, change) && t.activatedStake == s.activatedStake + activated
  }

  /** A vote for producers by an account that used no proxy, for the first time or for the same ones again. */
  lemma DirectVote(s: State, v: Name, producers: seq<Name>, voting: bool)
    requires v in s.voters && s.voters[v].proxy.None? && ValidBallot(v, None, producers)
    requires s.voters[v].weight <= 0.0 || s.voters[v].producers == producers
    requires VoteWeight(s, s.voters[v]) >= 0.0
    requires CanGive(s, producers, VoteWeight(s, s.voters[v]) - (if s.voters[v].weight > 0.0 then s.voters[v].weight else 0.0))
    ensures var r := s.voters[v];
            var weight := VoteWeight(s, r);
            var t := UpdateVotes(s, v, None, producers, voting);
            && t.Ok?
            && After(s, t.value, s.voters[v := r.(weight := weight, producers := producers)],
                     producers, weight - (if r.weight > 0.0 then r.weight else 0.0), Activated(r))
            && t.value.inexact == s.inexact
  {
    hide VoteWeight, MoveVotes, BallotDeltas, Evenly, Gives;
    var r := s.voters[v];
    var weight := VoteWeight(s, r);
    var s0 := Activate(s, r);
    assert MoveProxied(s0, v, None, weight, voting) == Ok(s0);
    var before := if r.weight > 0.0 then r.producers else [];
    SameBallotDeltas(before, r.weight, producers, weight);
    var change := weight - (if r.weight > 0.0 then r.weight else 0.0);
    assert before == [] && r.weight > 0.0 ==> producers == [];
    EvenlyNobody(weight, change);
    MoveEvenly(s0, producers, change, true, Cast(voting));
    var t := MoveVotes(s0, Evenly(producers, change, true), Cast(voting)).value;
    GivesFrom(s, s0, t, t.(voters := s.voters[v := r.(weight := weight, producers := producers)]), producers, change);
  }

  lemma EvenlyNobody(a: real, b: real)
    ensures Evenly([], a, true) == Evenly([], b, true)
  {
  }

  /** The voters and what else of the tables a vote sets do not matter to what it gives. */
  lemma GivesFrom(s: State, s0: State, t0: State, t: State, names: seq<Name>, change: real)
    requires Gives(s0, t0, names, change)
    requires s0 == s.(voters := s0.voters, inexact := s0.inexact,
                      activatedStake := s0.activatedStake, threshTime := s0.threshTime)
    requires t == t0.(voters := t.voters, inexact := t.inexact)
    ensures Gives(s, t, names, change)
  {
  }

  /** A vote of negative weight by an account that had no votes to take back. */
  lemma UncastVote(s: State, v: Name, producers: seq<Name>)
    requires v in s.voters && s.voters[v].weight <= 0.0 && VoteWeight(s, s.voters[v]) < 0.0
    requires ValidBallot(v, None, producers)
    ensures var r := s.voters[v];
            var t := UpdateVotes(s, v, None, producers, true);
            && t.Ok?
            && After(s, t.value, s.voters[v := r.(weight := VoteWeight(s, r), producers := producers, proxy := None)],
                     [], 0.0, r.staked)
            && t.value.inexact == s.inexact && t.value.producers == s.producers
  {
    hide ValidBallot, VoteWeight, BallotDeltas, MoveVotes, Growth, Gives;
    var r := s.voters[v];
    NoDeltas(r.weight, VoteWeight(s, r));
    var s0 := Activate(s, r);
    NothingMoves(s0, Cast(true));
    GivesNothing(s0, s0);
    UpdatedShareGives(s0, s0, [], 0.0, 0.0, 0.0);
    GivesFrom(s, s0, UpdateTotalShare(s0, 0.0, 0.0), UpdateVotes(s, v, None, producers, true).value, [], 0.0);
  }

  // ---------------------------------------------------------------------------------------------
  // Votes through a proxy.

  lemma GivesZero(s: State, t: State, names: seq<Name>)
    requires t == s.(voters := t.voters, activatedStake := t.activatedStake, threshTime := t.threshTime, inexact := t.inexact)
    ensures Gives(s, t, names, 0.0)
  {
  }

  /** A proxy that votes for registered producers itself. */
  predicate IsVotingProxy(s: State, x: Name) {
    && x in s.voters && s.voters[x].isProxy && s.voters[x].proxy.None?
    && Ascending(s.voters[x].producers) && AllRegistered(s.producers, s.voters[x].producers)
  }

  /** What a proxy's row becomes when it carries `delta` more. */
  function Carrying(s: State, x: Name, delta: real): Voter
    requires x in s.voters
  {
    var r := s.voters[x];
    r.(proxied := r.proxied + delta, weight := r.weight + NextChange(s, x, delta))
  }

  /** Such a proxy gives its producers the change of its weight, unless that is at most one. */
  lemma ProxyPasses(s: State, x: Name, delta: real, seen: set<Name>)
    requires IsVotingProxy(s, x) && x !in seen
    ensures var r := s.voters[x];
            var change := NextChange(s, x, delta);
            var t := Propagate(AddProxied(s, x, delta), x, seen);
            && t.Ok?
            && After(s, t.value, s.voters[x := Carrying(s, x, delta)], r.producers, PassedChange(change), 0)
            && t.value.inexact == (s.inexact || Distorted(r, r.weight + change))
            && t.value.threshTime == s.threshTime
  {
    hide Stake2Vote, MoveVotes, Gives, Evenly;
    var r := s.voters[x];
    var change := NextChange(s, x, delta);
    var s1 := AddProxied(s, x, delta);
    assert s1.voters[x] == r.(proxied := r.proxied + delta);
    assert s1.voters[x := Carrying(s, x, delta)] == s.voters[x := Carrying(s, x, delta)];
    PropagateFrom(s1, x, seen);
    if Passes(change) {
      EachEvenly(r.producers, change);
      MoveEvenly(s1, r.producers, change, false, PassedOn);
      var t := MoveVotes(s1, Evenly(r.producers, change, false), PassedOn).value;
      GivesFrom(s, s1, t, SetWeight(t, x, r.weight + change), r.producers, change);
      ThreshStays(s1, Evenly(r.producers, change, false), PassedOn);
    } else {
      GivesZero(s, SetWeight(s1, x, r.weight + change), r.producers);
    }
  }

  lemma PropagateFrom(s: State, x: Name, seen: set<Name>)
    requires x in s.voters && x !in seen && s.voters[x].proxy.None?
    ensures var r := s.voters[x];
            var weight := VoteWeight(s, r);
            var t := if Passes(weight - r.weight) then PassToProducers(s, r.producers, weight - r.weight) else Ok(s);
            Propagate(s, x, seen) == if t.Ok? then Ok(SetWeight(t.value, x, weight)) else t
  {
    hide PassToProducers, VoteWeight, SetWeight;
  }

  lemma EachEvenly(names: seq<Name>, change: real)
    ensures Each(names, change) == Evenly(names, change, false)
  {
  }

  lemma ThreshStays(s: State, ds: seq<Delta>, cause: Cause)
    ensures MoveVotes(s, ds, cause).Ok? ==> MoveVotes(s, ds, cause).value.threshTime == s.threshTime
  {
    hide ShiftAll;
    ShiftAllFrame(s, ds, cause);
  }

  /** A first vote through such a proxy. */
  lemma VoteThrough(s: State, v: Name, x: Name)
    requires IsVotingProxy(s, x) && v in s.voters && v != x
    requires s.voters[v].weight <= 0.0 && s.voters[v].proxy.None? && !s.voters[v].isProxy && VoteWeight(s, s.voters[v]) >= 0.0
    ensures var r := s.voters[v];
            var weight := VoteWeight(s, r);
            var change := NextChange(s, x, weight);
            var t := UpdateVotes(s, v, Some(x), [], true);
            && t.Ok?
            && After(s, t.value,
                     s.voters[x := Carrying(s, x, weight)][v := r.(weight := weight, producers := [], proxy := Some(x))],
                     s.voters[x].producers, PassedChange(change), r.staked)
            && t.value.inexact == (s.inexact || Distorted(s.voters[x], s.voters[x].weight + change))
  {
    hide VoteWeight, MoveVotes, BallotDeltas, Gives, Propagate, Distorted, Carrying;
    var r := s.voters[v];
    var weight := VoteWeight(s, r);
    var s0 := Activate(s, r);
    assert NextChange(s0, x, weight) == NextChange(s, x, weight) by {
      SameNextChange(s, s0, x, weight);
    }
    assert Carrying(s0, x, weight) == Carrying(s, x, weight) by {
      SameCarrying(s, s0, x, weight);
    }
    ProxyPasses(s0, x, weight, {v});
    var c := Propagate(AddProxied(s0, x, weight), x, {v}).value;
    assert MoveProxied(s0, v, Some(x), weight, true) == Ok(c);
    NoDeltas(r.weight, weight);
    NothingMoves(c, Cast(true));
    var change := PassedChange(NextChange(s, x, weight));
    NothingLeft(s, s0, c, UpdateVotes(s, v, Some(x), [], true).value, s.voters[x].producers, change);
  }

  lemma SameNextChange(s: State, t: State, x: Name, delta: real)
    requires x in s.voters && t.voters == s.voters && t.factor == s.factor
    ensures NextChange(t, x, delta) == NextChange(s, x, delta)
  {
  }

  lemma SameCarrying(s: State, t: State, x: Name, delta: real)
    requires x in s.voters && t.voters == s.voters && t.factor == s.factor
    ensures Carrying(t, x, delta) == Carrying(s, x, delta)
  {
  }

  /** Once a vote is moved between proxies, and with no producers on either ballot. */
  lemma NothingLeft(s: State, s0: State, c: State, t: State, names: seq<Name>, change: real)
    requires s0 == s.(activatedStake := s0.activatedStake, threshTime := s0.threshTime)
    requires Gives(s0, c, names, change)
    requires t == UpdateTotalShare(c, 0.0, 0.0).(voters := t.voters)
    ensures Gives(s, t, names, change)
  {
    hide Growth, Gives;
    UpdatedShareGives(s0, c, names, change, 0.0, 0.0);
    GivesFrom(s, s0, UpdateTotalShare(c, 0.0, 0.0), t, names, change);
  }

  /** A vote for nobody by an account that used such a proxy. */
  lemma VoteNobody(s: State, v: Name, x: Name)
    requires IsVotingProxy(s, x) && v in s.voters && v != x
    requires s.voters[v].weight > 0.0 && s.voters[v].proxy == Some(x)
    ensures var r := s.voters[v];
            var change := NextChange(s, x, -r.weight);
            var row := r.(weight := VoteWeight(s, r), producers := [], proxy := None);
            var t := UpdateVotes(s, v, None, [], true);
            && t.Ok?
            && After(s, t.value, s.voters[x := Carrying(s, x, -r.weight)][v := row],
                     s.voters[x].producers, PassedChange(change), 0)
            && t.value.inexact == (s.inexact || Distorted(s.voters[x], s.voters[x].weight + change))
  {
    hide VoteWeight, MoveVotes, BallotDeltas, Gives, Propagate, Distorted, Carrying, NextChange;
    var r := s.voters[v];
    var weight := VoteWeight(s, r);
    ProxyPasses(s, x, -r.weight, {v});
    var c := Propagate(AddProxied(s, x, -r.weight), x, {v}).value;
    assert MoveProxied(s, v, None, weight, true) == Ok(c);
    NoDeltas(r.weight, weight);
    NothingMoves(c, Cast(true));
    var change := PassedChange(NextChange(s, x, -r.weight));
    NothingLeft(s, s, c, UpdateVotes(s, v, None, [], true).value, s.voters[x].producers, change);
  }
}
