/** The chain between the actions of a run: 22 producers, and whoever has voted so far. */
module GovernanceScenes {
  import opened Basics
  import opened Ledger
  import opened Voting
  import opened VotePay
  import opened VoteBallots
  import opened VoteWeights
  import opened VoteBlocks
  import opened VoteSteps
  import opened Governance
  import opened GovernanceRuns

  /** Twenty-one names in order. */
  function Slate(first: Name): seq<Name> {
    seq(21, i requires 0 <= i < 21 => first + i)
  }

  lemma SlateNames(first: Name)
    ensures Ascending(Slate(first)) && |Slate(first)| == 21
    ensures forall p :: p in Slate(first) <==> first <= p < first + 21
  {
    forall p | first <= p < first + 21
      ensures p in Slate(first)
    {
      assert Slate(first)[p - first] == p;
    }
  }

  /** A slate of producers to vote for, and one producer more. */
  const PRODUCERS: seq<Name> := Slate(100)
  const LAST: Name := 200

  /** `each` of the slate has so many votes, and the last producer so many others. */
  datatype Scene = Scene(
    pay: Pay, start: int, now: int, factor: real, voters: map<Name, Voter>,
    each: real, other: real, activated: int, inexact: bool)

  ghost predicate Stands(producers: map<Name, Producer>, start: int, each: real, other: real) {
    && (forall p :: p in producers <==> p in PRODUCERS || p == LAST)
    && (forall p :: p in producers ==>
          producers[p].active && producers[p].lastClaim == start && producers[p].votes == if p == LAST then other else each)
  }

  ghost predicate Shows(c: Chain, x: Scene) {
    && c.pay == x.pay && c.v.now == x.now && c.v.factor == x.factor && c.v.voters == x.voters
    && Stands(c.v.producers, x.start, x.each, x.other) && c.v.totalWeight == 21.0 * x.each + x.other
    && c.v.activatedStake == x.activated && c.v.inexact == x.inexact
  }

  /** A known run, continued. */
  lemma {:induction false} RunOn(c: Chain, before: seq<Action>, actions: seq<Action>, chains: seq<Chain>)
    requires |chains| == |actions| + 1 && chains[0] == Run(c, before)
    requires forall i :: 0 <= i < |actions| ==> Step(chains[i], actions[i]) == Ok(chains[i + 1])
    ensures Run(c, before + actions) == chains[|actions|]
    decreases |actions|
  {
    hide Step;
    if actions == [] {
      assert before + actions == before;
    } else {
      var n := |actions| - 1;
      RunOn(c, before, actions[..n], chains[..n + 1]);
      assert (before + actions)[..|before| + n] == before + actions[..n];
      assert Step(chains[n], actions[n]) == Ok(chains[n + 1]);
    }
  }

  // ---------------------------------------------------------------------------------------------
  // One action.

  /** What a ballot of the slate, of the last producer, or of nobody gives. */
  predicate IsBallot(names: seq<Name>) {
    names == PRODUCERS || names == [LAST] || names == []
  }

  function Given(x: Scene, names: seq<Name>, change: real): Scene {
    x.(each := if names == PRODUCERS then x.each + change else x.each,
       other := if names == [LAST] then x.other + change else x.other)
  }

  predicate HaveVotes(x: Scene, names: seq<Name>, change: real) {
    (names == PRODUCERS ==> x.each + change >= 0.0) && (names == [LAST] ==> x.other + change >= 0.0)
  }

  function Weight(r: Voter, factor: real): real {
    Stake2Vote(r.staked, factor) + (if r.isProxy then r.proxied else 0.0)
  }

  lemma ShowsGiven(
    c: Chain, s: State, t: State, x: Scene, voters: map<Name, Voter>, names: seq<Name>, change: real, activated: int)
    requires Shows(c, x) && s == c.v.(voters := s.voters) && IsBallot(names)
    requires After(s, t, voters, names, change, activated)
    ensures Shows(c.(v := t), Given(x, names, change).(
              voters := voters, activated := x.activated + activated, inexact := t.inexact))
  {
    hide Stands;
    BallotsDiffer(names);
    StandsGiven(s, t, x.start, x.each, x.other, names, change);
  }

  lemma BallotsDiffer(names: seq<Name>)
    requires IsBallot(names)
    ensures |PRODUCERS| == 21
    ensures names == PRODUCERS ==> names != [LAST] && names != []
  {
    SlateNames(100);
  }

  lemma StandsGiven(s: State, t: State, start: int, each: real, other: real, names: seq<Name>, change: real)
    requires IsBallot(names) && Stands(s.producers, start, each, other) && Gives(s, t, names, change)
    ensures Stands(t.producers, start, if names == PRODUCERS then each + change else each,
                   if names == [LAST] then other + change else other)
  {
    SlateNames(100);
    BallotsDiffer(names);
    assert names == [LAST] ==> forall p :: p in names <==> p == LAST;
  }

  /** A vote, its voter's REX revalued, for the first time or for the same producers again. */
  lemma Votes(c: Chain, x: Scene, v: Name, names: seq<Name>, rexDelta: int, holdsRex: bool)
    requires Shows(c, x) && v in x.voters && IsBallot(names) && (holdsRex ==> names == PRODUCERS)
    requires var r := x.voters[v];
             && r.proxy.None? && (r.weight <= 0.0 || r.producers == names)
    requires var r := x.voters[v].(staked := x.voters[v].staked + rexDelta);
             var change := Weight(r, x.factor) - (if r.weight > 0.0 then r.weight else 0.0);
             && Weight(r, x.factor) >= 0.0 && HaveVotes(x, names, change)
    ensures var r := x.voters[v].(staked := x.voters[v].staked + rexDelta);
            var change := Weight(r, x.factor) - (if r.weight > 0.0 then r.weight else 0.0);
            var d := Step(c, ActVoteProducer(v, None, names, rexDelta, holdsRex));
            && d.Ok?
            && Shows(d.value, Given(x, names, change).(
                 voters := x.voters[v := r.(weight := Weight(r, x.factor), producers := names)],
                 activated := x.activated + Activated(r)))
  {
    hide UpdateVotes, Gives, Stands, Ascending;
    var r := x.voters[v].(staked := x.voters[v].staked + rexDelta);
    var s := c.v.(voters := c.v.voters[v := r]);
    var change := Weight(r, x.factor) - (if r.weight > 0.0 then r.weight else 0.0);
    assert VoteWeight(s, r) == Weight(r, x.factor);
    BallotFits(c, x, names, change);
    DirectVote(s, v, names, true);
    var t := UpdateVotes(s, v, None, names, true).value;
    assert s.voters[v := r.(weight := Weight(r, x.factor), producers := names)]
        == x.voters[v := r.(weight := Weight(r, x.factor), producers := names)];
    ShowsGiven(c, s, t, x, t.voters, names, change, Activated(r));
  }

  lemma BallotFits(c: Chain, x: Scene, names: seq<Name>, change: real)
    requires Shows(c, x) && IsBallot(names)
    ensures ValidBallot(0, None, names) && (names == PRODUCERS ==> |names| == 21)
    ensures HaveVotes(x, names, change) ==> forall voters :: CanGive(c.v.(voters := voters), names, change)
    ensures forall voters :: AllRegistered(c.v.(voters := voters).producers, names)
  {
    SlateNames(100);
  }

  /** A change of stake by an account that votes directly. */
  lemma Refreshes(c: Chain, x: Scene, v: Name, delta: int)
    requires Shows(c, x) && v in x.voters && IsBallot(x.voters[v].producers) && x.voters[v].producers != []
    requires x.voters[v].proxy.None?
    requires var r := x.voters[v].(staked := x.voters[v].staked + delta);
             var change := Weight(r, x.factor) - (if r.weight > 0.0 then r.weight else 0.0);
             && r.staked >= 0 && Weight(r, x.factor) >= 0.0 && HaveVotes(x, r.producers, change)
    ensures var r := x.voters[v].(staked := x.voters[v].staked + delta);
            var change := Weight(r, x.factor) - (if r.weight > 0.0 then r.weight else 0.0);
            var d := Step(c, ActChangeStake(v, delta));
            && d.Ok?
            && Shows(d.value, Given(x, r.producers, change).(
                 voters := x.voters[v := r.(weight := Weight(r, x.factor))], activated := x.activated + Activated(r)))
  {
    hide UpdateVotes, Gives, Stands, Ascending;
    var r := x.voters[v].(staked := x.voters[v].staked + delta);
    var s := c.v.(voters := c.v.voters[v := r]);
    var change := Weight(r, x.factor) - (if r.weight > 0.0 then r.weight else 0.0);
    assert VoteWeight(s, r) == Weight(r, x.factor);
    BallotFits(c, x, r.producers, change);
    DirectVote(s, v, r.producers, false);
    var t := UpdateVotes(s, v, None, r.producers, false).value;
    assert s.voters[v := r.(weight := Weight(r, x.factor), producers := r.producers)]
        == x.voters[v := r.(weight := Weight(r, x.factor))];
    ShowsGiven(c, s, t, x, t.voters, r.producers, change, Activated(r));
  }

  /** A vote of negative weight, its voter's REX having lost worth, by an account that had no votes. */
  lemma VotesUncast(c: Chain, x: Scene, v: Name, names: seq<Name>, rexDelta: int)
    requires Shows(c, x) && v in x.voters && |names| == 21 && Ascending(names)
    requires x.voters[v].weight <= 0.0 && x.voters[v].proxy.None?
    requires Weight(x.voters[v].(staked := x.voters[v].staked + rexDelta), x.factor) < 0.0
    ensures var r := x.voters[v].(staked := x.voters[v].staked + rexDelta);
            var d := Step(c, ActVoteProducer(v, None, names, rexDelta, true));
            && d.Ok?
            && Shows(d.value, x.(voters := x.voters[v := r.(weight := Weight(r, x.factor), producers := names)],
                                 activated := x.activated + r.staked))
  {
    hide UpdateVotes, Gives, Stands, Ascending;
    var r := x.voters[v].(staked := x.voters[v].staked + rexDelta);
    var s := c.v.(voters := c.v.voters[v := r]);
    assert VoteWeight(s, r) == Weight(r, x.factor);
    UncastVote(s, v, names);
    var t := UpdateVotes(s, v, None, names, true).value;
    assert s.voters[v := r.(weight := Weight(r, x.factor), producers := names, proxy := None)]
        == x.voters[v := r.(weight := Weight(r, x.factor), producers := names)];
    ShowsGiven(c, s, t, x, t.voters, [], 0.0, r.staked);
    GivenNothing(x);
  }

  lemma GivenNothing(x: Scene)
    ensures Given(x, [], 0.0) == x
  {
    SlateNames(100);
  }

  // ---------------------------------------------------------------------------------------------
  // Votes through a proxy.

  /** The row of proxy `p` once it carries `delta` more, and the change of its weight. */
  function Carried(x: Scene, p: Name, delta: real): Voter
    requires p in x.voters
  {
    var row := x.voters[p].(proxied := x.voters[p].proxied + delta);
    row.(weight := Weight(row, x.factor))
  }

  function Change(x: Scene, p: Name, delta: real): real
    requires p in x.voters
  {
    Carried(x, p, delta).weight - x.voters[p].weight
  }

  lemma ProxyScene(c: Chain, x: Scene, p: Name, delta: real)
    requires Shows(c, x) && p in x.voters && x.voters[p].isProxy && x.voters[p].proxy.None? && IsBallot(x.voters[p].producers)
    ensures IsVotingProxy(c.v, p) && NextChange(c.v, p, delta) == Change(x, p, delta)
    ensures Carrying(c.v, p, delta) == Carried(x, p, delta)
  {
    SlateNames(100);
  }

  /** The scene after proxy `p` carries `delta` more. */
  function CarriedScene(x: Scene, p: Name, delta: real): Scene
    requires p in x.voters
  {
    var change := Change(x, p, delta);
    Given(x, x.voters[p].producers, PassedChange(change))
      .(voters := x.voters[p := Carried(x, p, delta)],
        inexact := x.inexact || Distorted(x.voters[p], x.voters[p].weight + change))
  }

  /** A first vote through a proxy. */
  lemma VotesThrough(c: Chain, x: Scene, v: Name, p: Name)
    requires Shows(c, x) && p in x.voters && x.voters[p].isProxy && x.voters[p].proxy.None? && IsBallot(x.voters[p].producers)
    requires v in x.voters && v != p
    requires x.voters[v] == NewVoter(x.voters[v].staked, false) && Weight(x.voters[v], x.factor) >= 0.0
    ensures var weight := Weight(x.voters[v], x.factor);
            var d := Step(c, ActVoteProducer(v, Some(p), [], 0, false));
            && d.Ok?
            && var y := CarriedScene(x, p, weight);
               Shows(d.value, y.(voters := y.voters[v := x.voters[v].(weight := weight, proxy := Some(p))],
                                 activated := x.activated + x.voters[v].staked))
  {
    hide UpdateVotes, Gives, Stands, Ascending, Distorted, NextChange, Carrying, Carried, IsVotingProxy;
    var r := x.voters[v];
    var weight := Weight(r, x.factor);
    assert c.v.voters[v].(staked := r.staked + 0) == r && c.v.(voters := c.v.voters[v := r]) == c.v;
    assert VoteWeight(c.v, r) == weight;
    ProxyScene(c, x, p, weight);
    VoteThrough(c.v, v, p);
    var t := UpdateVotes(c.v, v, Some(p), [], true).value;
    ShowsGiven(c, c.v, t, x, t.voters, x.voters[p].producers, PassedChange(Change(x, p, weight)), r.staked);
  }

  /** A vote for nobody by an account that used a proxy. */
  lemma VotesNobody(c: Chain, x: Scene, v: Name, p: Name)
    requires Shows(c, x) && p in x.voters && x.voters[p].isProxy && x.voters[p].proxy.None? && IsBallot(x.voters[p].producers)
    requires v in x.voters && v != p && x.voters[v].proxy == Some(p) && x.voters[v].weight > 0.0
    ensures var r := x.voters[v];
            var d := Step(c, ActVoteProducer(v, None, [], 0, false));
            && d.Ok?
            && var y := CarriedScene(x, p, -r.weight);
               Shows(d.value, y.(voters := y.voters[v := r.(weight := Weight(r, x.factor), producers := [], proxy := None)]))
  {
    hide UpdateVotes, Gives, Stands, Ascending, Distorted, NextChange, Carrying, Carried, IsVotingProxy;
    var r := x.voters[v];
    assert c.v.voters[v].(staked := r.staked + 0) == r && c.v.(voters := c.v.voters[v := r]) == c.v;
    assert VoteWeight(c.v, r) == Weight(r, x.factor);
    ProxyScene(c, x, p, -r.weight);
    VoteNobody(c.v, v, p);
    var t := UpdateVotes(c.v, v, None, [], true).value;
    ShowsGiven(c, c.v, t, x, t.voters, x.voters[p].producers, PassedChange(Change(x, p, -r.weight)), 0);
  }

  // ---------------------------------------------------------------------------------------------
  // Other actions.

  /** A new account, which stakes or becomes a proxy. */
  lemma NewAccount(c: Chain, x: Scene, v: Name, staked: int)
    requires Shows(c, x) && v !in x.voters && staked >= 0
    ensures var d := Step(c, ActChangeStake(v, staked));
            d.Ok? && Shows(d.value, x.(voters := x.voters[v := NewVoter(staked, false)]))
    ensures var d := Step(c, ActRegProxy(v, true)); d.Ok? && Shows(d.value, x.(voters := x.voters[v := NewVoter(0, true)]))
  {
    hide UpdateVotes, Stands, Propagate;
  }

  /** An account stakes before it votes. */
  lemma Stakes(c: Chain, x: Scene, v: Name, delta: int)
    requires Shows(c, x) && v in x.voters && x.voters[v].proxy.None? && x.voters[v].producers == []
    requires x.voters[v].staked + delta >= 0
    ensures var d := Step(c, ActChangeStake(v, delta));
            && d.Ok?
            && Shows(d.value, x.(voters := x.voters[v := x.voters[v].(staked := x.voters[v].staked + delta)]))
  {
    hide UpdateVotes, Stands, Propagate;
  }

  lemma Later(c: Chain, x: Scene, now: int, factor: real)
    requires Shows(c, x) && x.now <= now && factor >= 0.0
    ensures var d := Step(c, ActTime(now, factor)); d.Ok? && Shows(d.value, x.(now := now, factor := factor))
  {
    hide Stands;
  }
}
