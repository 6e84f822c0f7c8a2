/**
 When the tallies are the sums of the weights as stored, when passing weight on distorts them, and
 what a ballot cast with a negative weight leaves behind.
 */
module VoteWeights {
  import opened Basics
  import opened Voting
  import opened VotePay
  import opened ProxyGraph
  import opened VoteTallies
  import opened VoteBallots
  import opened VoteActions
  import SortedIndex
  import Sums = RealSums

  // ---------------------------------------------------------------------------------------------
  // Weights as stored.

  predicate ListsProducer(r: Voter, p: Name) {
    r.proxy.None? && p in r.producers
  }

  /** What `last_vote_weight` says of producer `p`. */
  function StoredFor(p: Name): (Name, Voter) -> real {
    (v: Name, r: Voter) => if r.proxy.None? && p in r.producers then r.weight else 0.0
  }

  /** What `last_vote_weight` says of proxy `x`. */
  function StoredThrough(x: Name): (Name, Voter) -> real {
    (v: Name, r: Voter) => if r.proxy == Some(x) then r.weight else 0.0
  }

  function Uncast(weight: real): real {
    if weight < 0.0 then -weight else 0.0
  }

  function UncastFor(p: Name): (Name, Voter) -> real {
    (v: Name, r: Voter) => if r.proxy.None? && p in r.producers then Uncast(r.weight) else 0.0
  }

  function UncastThrough(x: Name): (Name, Voter) -> real {
    (v: Name, r: Voter) => if r.proxy == Some(x) then Uncast(r.weight) else 0.0
  }

  /** Two sums that differ by one without negative terms are equal only if all its terms are zero. */
  lemma SumsEqualIff(voters: Voters, f: (Name, Voter) -> real, g: (Name, Voter) -> real, h: (Name, Voter) -> real)
    requires forall v :: v in voters ==> f(v, voters[v]) == g(v, voters[v]) + h(v, voters[v]) && h(v, voters[v]) >= 0.0
    ensures Sums.Sum(voters, f) == Sums.Sum(voters, g) <==> forall v :: v in voters ==> h(v, voters[v]) == 0.0
    ensures Sums.Sum(voters, f) >= Sums.Sum(voters, g)
  {
    Sums.SumLinear(voters, f, g, h, 1.0);
    assert Sums.Times(Sums.Sum(voters, h), 1.0) == Sums.Sum(voters, h);
    Sums.SumBounds(voters, h);
    if forall v :: v in voters ==> h(v, voters[v]) == 0.0 {
      Sums.SumZero(voters, h);
    }
  }

  /** The votes cast for a producer are the weights stored for it exactly if none of these is negative. */
  lemma StoredIsCastIff(voters: Voters, p: Name)
    ensures Sums.Sum(voters, Backing(p)) == Sums.Sum(voters, StoredFor(p))
            <==> forall v :: v in voters && ListsProducer(voters[v], p) ==> voters[v].weight >= 0.0
  {
    SumsEqualIff(voters, Backing(p), StoredFor(p), UncastFor(p));
    assert forall v :: v in voters ==>
      (UncastFor(p)(v, voters[v]) == 0.0 <==> (ListsProducer(voters[v], p) ==> voters[v].weight >= 0.0));
  }

  lemma StoredIsCarriedIff(voters: Voters, x: Name)
    ensures Sums.Sum(voters, Through(x)) == Sums.Sum(voters, StoredThrough(x))
            <==> forall v :: v in voters && voters[v].proxy == Some(x) ==> voters[v].weight >= 0.0
  {
    SumsEqualIff(voters, Through(x), StoredThrough(x), UncastThrough(x));
    assert forall v :: v in voters ==>
      (UncastThrough(x)(v, voters[v]) == 0.0 <==> (voters[v].proxy == Some(x) ==> voters[v].weight >= 0.0));
  }

  /**
   A producer's `total_votes` is the sum of the `last_vote_weight` of its direct voters exactly if no
   direct voter of it has a negative one; and likewise for a proxy.
   */
  lemma TotalVotesAreStoredIff(s: State, p: Name)
    requires Sound(s) && !s.inexact && p in s.producers
    ensures s.producers[p].votes == Sums.Sum(s.voters, StoredFor(p))
            <==> forall v :: v in s.voters && ListsProducer(s.voters[v], p) ==> s.voters[v].weight >= 0.0
  {
    hide Sums.Sum, InAgreement, Acyclic;
    StoredIsCastIff(s.voters, p);
  }

  lemma ProxiedIsStoredIff(s: State, x: Name)
    requires Sound(s) && !s.inexact && x in s.voters
    ensures s.voters[x].proxied == Sums.Sum(s.voters, StoredThrough(x))
            <==> forall v :: v in s.voters && s.voters[v].proxy == Some(x) ==> s.voters[v].weight >= 0.0
  {
    hide Sums.Sum, InAgreement, Acyclic;
    StoredIsCarriedIff(s.voters, x);
    assert s.voters + map[] == s.voters;
  }

  // ---------------------------------------------------------------------------------------------
  // One vote.

  lemma VoteStores(s: State, v: Name, proxy: Option<Name>, producers: seq<Name>, voting: bool)
    requires UpdateVotes(s, v, proxy, producers, voting).Ok?
    ensures v in s.voters
    ensures var t := UpdateVotes(s, v, proxy, producers, voting).value;
            && v in t.voters
            && t.voters[v].weight == VoteWeight(s, s.voters[v]) && t.voters[v].proxy == proxy && t.voters[v].producers == producers
  {
    hide MoveProxied, MoveVotes, Recast, VoteWeight, ValidBallot, Activate;
  }

  /** What a vote is worth once the voter's REX is revalued. */
  function RevaluedWeight(s: State, v: Name, rexDelta: int): real
    requires v in s.voters
  {
    VoteWeight(s, s.voters[v].(staked := s.voters[v].staked + rexDelta))
  }

  lemma ProducerVoteStores(s: State, v: Name, proxy: Option<Name>, producers: seq<Name>, rexDelta: int, holdsRex: bool)
    requires VoteProducer(s, v, proxy, producers, rexDelta, holdsRex).Ok?
    ensures v in s.voters
    ensures var t := VoteProducer(s, v, proxy, producers, rexDelta, holdsRex).value;
            && v in t.voters
            && t.voters[v].weight == RevaluedWeight(s, v, rexDelta) && t.voters[v].proxy == proxy
            && t.voters[v].producers == producers
  {
    hide UpdateVotes;
    if v in s.voters {
      var row := s.voters[v].(staked := s.voters[v].staked + rexDelta);
      VoteStores(s.(voters := s.voters[v := row]), v, proxy, producers, true);
    } else {
      assert UpdateVotes(s, v, proxy, producers, true).Err? by {
        NoVoter(s, v, proxy, producers);
      }
    }
  }

  lemma NoVoter(s: State, v: Name, proxy: Option<Name>, producers: seq<Name>)
    requires v !in s.voters
    ensures UpdateVotes(s, v, proxy, producers, true) == Err(Rejected)
  {
  }

  /**
   After `voteproducer`, nothing having been distorted and no other direct voter of `p` having a negative
   weight: the votes of `p` are the weights stored for it exactly if the vote's weight is not negative
   or `p` is not on the ballot.
   */
  lemma VoteKeepsStoredIff(
    s: State, v: Name, proxy: Option<Name>, producers: seq<Name>, rexDelta: int, holdsRex: bool, p: Name)
    requires Sound(s) && VoteProducer(s, v, proxy, producers, rexDelta, holdsRex).Ok?
    requires v in s.voters
    requires var t := VoteProducer(s, v, proxy, producers, rexDelta, holdsRex).value;
             && !t.inexact && p in t.producers
             && forall u :: u in t.voters && u != v && ListsProducer(t.voters[u], p) ==> t.voters[u].weight >= 0.0
    ensures var t := VoteProducer(s, v, proxy, producers, rexDelta, holdsRex).value;
            t.producers[p].votes == Sums.Sum(t.voters, StoredFor(p))
            <==> RevaluedWeight(s, v, rexDelta) >= 0.0 || p !in producers || proxy.Some?
  {
    hide Sums.Sum, VoteProducer, Sound, RevaluedWeight;
    VoteProducerKept(s, v, proxy, producers, rexDelta, holdsRex);
    ProducerVoteStores(s, v, proxy, producers, rexDelta, holdsRex);
    TotalVotesAreStoredIff(VoteProducer(s, v, proxy, producers, rexDelta, holdsRex).value, p);
  }

  /** The same for the proxy a vote is cast through. */
  lemma VoteKeepsCarriedIff(
    s: State, v: Name, x: Name, producers: seq<Name>, rexDelta: int, holdsRex: bool)
    requires Sound(s) && VoteProducer(s, v, Some(x), producers, rexDelta, holdsRex).Ok?
    requires v in s.voters
    requires var t := VoteProducer(s, v, Some(x), producers, rexDelta, holdsRex).value;
             && !t.inexact && x in t.voters
             && forall u :: u in t.voters && u != v && t.voters[u].proxy == Some(x) ==> t.voters[u].weight >= 0.0
    ensures var t := VoteProducer(s, v, Some(x), producers, rexDelta, holdsRex).value;
            t.voters[x].proxied == Sums.Sum(t.voters, StoredThrough(x)) <==> RevaluedWeight(s, v, rexDelta) >= 0.0
  {
    hide Sums.Sum, VoteProducer, Sound, RevaluedWeight;
    VoteProducerKept(s, v, Some(x), producers, rexDelta, holdsRex);
    ProducerVoteStores(s, v, Some(x), producers, rexDelta, holdsRex);
    ProxiedIsStoredIff(VoteProducer(s, v, Some(x), producers, rexDelta, holdsRex).value, x);
  }

  // ---------------------------------------------------------------------------------------------
  // Passing weight on.

  /**
   A changed weight is distorted in one of two ways. A change of at most one is not passed on, though
   either weight stands for votes; or a greater one is passed on in full, though either weight is negative
   and stands for none.
   */
  lemma DistortedIff(r: Voter, weight: real)
    ensures Distorted(r, weight) <==>
      && HasBallot(r) && weight != r.weight
      && (if -1.0 <= weight - r.weight <= 1.0 then weight > 0.0 || r.weight > 0.0 else weight < 0.0 || r.weight < 0.0)
  {
  }

  /** Votes passed on are added as they are, whatever the sign. */
  lemma {:induction false} PassedVotes(s: State, ds: seq<Delta>)
    requires ShiftAll(s, ds, PassedOn).Ok?
    ensures var f := ShiftAll(s, ds, PassedOn).value;
            && f.s.producers.Keys == s.producers.Keys
            && forall p :: p in s.producers ==> f.s.producers[p].votes == s.producers[p].votes + MovedTo(ds, p)
    decreases |ds|
  {
    hide Growth;
    if ds != [] {
      PassedVotes(s, ds[..|ds| - 1]);
    }
  }

  /** What passing on does to the producers of a direct voter. */
  lemma PassToProducersVotes(s: State, producers: seq<Name>, delta: real)
    requires Ascending(producers) && PassToProducers(s, producers, delta).Ok?
    ensures var t := PassToProducers(s, producers, delta).value;
            && t.voters == s.voters
            && t.producers.Keys == s.producers.Keys
            && forall p :: p in s.producers ==>
                 t.producers[p].votes == s.producers[p].votes + (if p in producers then delta else 0.0)
  {
    hide MovedTo, Growth, ShiftAll;
    EachMoves(producers, delta);
    PassedVotes(s, Each(producers, delta));
  }

  /**
   Passing on the weight of a direct voter whose producers have the votes cast for them leaves them so
   exactly if the stored weight is not distorted.
   */
  lemma DirectExactIff(s: State, v: Name, seen: set<Name>, p: Name)
    requires v in s.voters && v !in seen && BallotFormed(v, s.voters[v]) && s.voters[v].proxy.None?
    requires p in s.voters[v].producers && p in s.producers && s.producers[p].votes == Sums.Sum(s.voters, Backing(p))
    requires Propagate(s, v, seen).Ok?
    ensures var t := Propagate(s, v, seen).value;
            p in t.producers
            && (t.producers[p].votes == Sums.Sum(t.voters, Backing(p)) <==> !Distorted(s.voters[v], VoteWeight(s, s.voters[v])))
  {
    hide Sums.Sum, PassToProducers, VoteWeight;
    var r := s.voters[v];
    var weight := VoteWeight(s, r);
    var delta := weight - r.weight;
    if !(-1.0 <= delta <= 1.0) {
      PassToProducersVotes(s, r.producers, delta);
    }
    PutCast(s.voters, v, r.(weight := weight));
  }

  // ---------------------------------------------------------------------------------------------
  // Ballots of unregistered producers.

  predicate AllRegistered(producers: map<Name, Producer>, names: seq<Name>) {
    forall p :: p in names ==> p in producers
  }

  lemma UpdateVotesRegisteredIff(s: State, v: Name, proxy: Option<Name>, producers: seq<Name>, voting: bool)
    requires Graph(s) && Registered(s) && UpdateVotes(s, v, proxy, producers, voting).Ok?
    requires !voting ==> v in s.voters && proxy == s.voters[v].proxy && producers == s.voters[v].producers
    ensures v in s.voters
    ensures var t := UpdateVotes(s, v, proxy, producers, voting).value;
            && (Registered(t) <==> AllRegistered(s.producers, producers))
            && (VoteWeight(s, s.voters[v]) >= 0.0 ==> Registered(t))
  {
    hide MoveVotes, Recast, SameBallots, VoteWeight, MoveProxied, Activate;
    assert !voting ==> BallotFormed(v, s.voters[v]);
    var r := s.voters[v];
    var s0 := Activate(s, r);
    ActivateKeeps(s, r);
    var row := r.(weight := VoteWeight(s, r), producers := producers, proxy := proxy);
    MoveProxiedEnds(s0, v, proxy, row.weight, voting);
    var c := MoveProxied(s0, v, proxy, row.weight, voting).value;
    SameProducers(s0, c, {v});
    SameBallotsKeepGraph(s0, c, {v});
    SameRow(s0, c, v);
    var m := MoveVotes(c, Recast(r, row.weight, proxy, producers), Cast(voting)).value;
    MoveVotesEnds(c, Recast(r, row.weight, proxy, producers), Cast(voting));
    FinalRegistered(c, m, v, row, voting);
    PutBallotRegistered(m, v, row);
  }

  lemma StoredRegistered(s: State, v: Name)
    requires Registered(s) && v in s.voters
    ensures AllRegistered(s.producers, s.voters[v].producers)
  {
  }

  lemma SameProducers(s: State, t: State, fixed: set<Name>)
    requires SameBallots(s, t, fixed)
    ensures t.producers.Keys == s.producers.Keys
  {
  }

  lemma PutBallotRegistered(s: State, v: Name, row: Voter)
    requires Registered(s) && v in s.voters
    ensures Registered(s.(voters := s.voters[v := row])) <==> AllRegistered(s.producers, row.producers)
  {
    var t := s.(voters := s.voters[v := row]);
    assert t.voters[v] == row;
  }

  /**
   `voteproducer` stores a ballot of registered producers exactly if it names none other; it checks that
   it does unless the vote's weight is negative.
   */
  lemma VoteRegisteredIff(s: State, v: Name, proxy: Option<Name>, producers: seq<Name>, rexDelta: int, holdsRex: bool)
    requires Sound(s) && Registered(s) && VoteProducer(s, v, proxy, producers, rexDelta, holdsRex).Ok?
    ensures v in s.voters
    ensures var t := VoteProducer(s, v, proxy, producers, rexDelta, holdsRex).value;
            && (Registered(t) <==> AllRegistered(s.producers, producers))
            && (RevaluedWeight(s, v, rexDelta) >= 0.0 ==> Registered(t))
  {
    hide UpdateVotes, Exact, Acyclic, Stake2Vote;
    ProducerVoteStores(s, v, proxy, producers, rexDelta, holdsRex);
    var row := s.voters[v].(staked := s.voters[v].staked + rexDelta);
    assert BallotFormed(v, s.voters[v]);
    RowKeepsSound(s, v, row);
    UpdateVotesRegisteredIff(s.(voters := s.voters[v := row]), v, proxy, producers, true);
  }

  /** No other voting action stores a ballot. */
  lemma ChangeStakeRegistered(s: State, v: Name, delta: int)
    requires Sound(s) && Registered(s) && ChangeStake(s, v, delta).Ok?
    ensures Registered(ChangeStake(s, v, delta).value)
  {
    hide UpdateVotes, Exact, Acyclic, Registered;
    if v !in s.voters {
      NewVoterRegistered(s, v, delta, false);
    } else {
      var row := s.voters[v].(staked := s.voters[v].staked + delta);
      assert BallotFormed(v, s.voters[v]);
      RowKeepsSound(s, v, row);
      var t := s.(voters := s.voters[v := row]);
      if |row.producers| > 0 || row.proxy.Some? {
        UpdateVotesRegisteredIff(t, v, row.proxy, row.producers, false);
        StoredRegistered(t, v);
      }
    }
  }

  lemma RegProxyRegistered(s: State, v: Name, isProxy: bool)
    requires Sound(s) && Registered(s)
    ensures var r := RegProxy(s, v, isProxy); r.Ok? ==> Registered(r.value)
  {
    hide Propagate, Exact, SameBallots, Acyclic, Registered;
    if v !in s.voters {
      NewVoterRegistered(s, v, 0, isProxy);
    } else if RegProxy(s, v, isProxy).Ok? {
      var row := s.voters[v].(isProxy := isProxy);
      var t := s.(voters := s.voters[v := row]);
      assert BallotFormed(v, s.voters[v]);
      RowKeepsSound(s, v, row);
      GraphRank(t);
      var rank :| Ranked(t.voters, rank);
      PropagateEnds(t, v, {}, rank);
      SameBallotsKeepGraph(t, Propagate(t, v, {}).value, {});
    }
  }

  lemma NewVoterRegistered(s: State, v: Name, staked: int, isProxy: bool)
    requires Registered(s) && v !in s.voters
    ensures Registered(s.(voters := s.voters[v := NewVoter(staked, isProxy)]))
  {
  }

  /** Moving nobody's votes. */
  lemma NothingMoves(s: State, cause: Cause)
    ensures MoveVotes(s, [], cause) == Ok(UpdateTotalShare(s, 0.0, 0.0))
  {
    hide Growth;
    assert -0.0 == 0.0;
  }

  lemma NoDeltas(a: real, b: real)
    ensures BallotDeltas([], a, [], b) == []
  {
    var names := BallotNames([], []);
    SortedIndex.SomeName(names);
  }
}
