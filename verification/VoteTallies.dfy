/**
 The tallies are kept by undoing an account's last weight and adding its new one, producer by
 producer and proxy by proxy. They equal the sums they stand for.
 */
module VoteTallies {
  import opened Basics
  import opened Voting
  import opened VotePay
  import opened ProxyGraph
  import Sums = RealSums

  type Voters = map<Name, Voter>

  /** What an account's vote adds to producer `p` directly. */
  function Backing(p: Name): (Name, Voter) -> real {
    (v: Name, r: Voter) => if r.proxy.None? && p in r.producers then CastWeight(r.weight) else 0.0
  }

  /** What an account's vote adds to proxy `x`. */
  function Through(x: Name): (Name, Voter) -> real {
    (v: Name, r: Voter) => if r.proxy == Some(x) then CastWeight(r.weight) else 0.0
  }

  ghost predicate BackingExact(s: State) {
    forall p :: p in s.producers ==> s.producers[p].votes == Sums.Sum(s.voters, Backing(p))
  }

  /** `cast` are the ballots as they will be once the running update is complete. */
  ghost predicate ProxiesExact(voters: Voters, cast: Voters) {
    forall x :: x in voters ==> voters[x].proxied == Sums.Sum(cast, Through(x))
  }

  /** Whoever has votes cast votes for registered producers. */
  ghost predicate CastRegistered(s: State) {
    forall v, p :: v in s.voters && s.voters[v].weight > 0.0 && p in s.voters[v].producers ==> p in s.producers
  }

  /**
   The tallies are exact, the ballots of the accounts in `pending` being taken as they will be:
   a producer has the weight of the accounts voting for it, a proxy that of the accounts using it.
   */
  ghost predicate Tallies(s: State, pending: Voters) {
    && pending.Keys <= s.voters.Keys
    && CastRegistered(s)
    && BackingExact(s)
    && ProxiesExact(s.voters, s.voters + pending)
    && InAgreement(s)
  }

  // ---------------------------------------------------------------------------------------------
  // Changing one row under the sums.

  lemma MergePut(voters: Voters, pending: Voters, v: Name, row: Voter)
    requires v !in pending
    ensures voters[v := row] + pending == (voters + pending)[v := row]
  {
  }

  lemma PutMerge(voters: Voters, pending: Voters, v: Name, row: Voter)
    ensures voters + pending[v := row] == (voters + pending)[v := row]
  {
  }

  /** Two rows whose votes add the same to every producer and every proxy. */
  predicate SameVotes(r: Voter, row: Voter) {
    && row.proxy == r.proxy && row.producers == r.producers
    && (HasBallot(r) ==> CastWeight(row.weight) == CastWeight(r.weight))
  }

  /** Such rows may be swapped in either kind of sum. */
  lemma SameCast(cast: Voters, v: Name, row: Voter)
    requires v in cast && SameVotes(cast[v], row)
    ensures forall p :: Sums.Sum(cast[v := row], Backing(p)) == Sums.Sum(cast, Backing(p))
    ensures forall x :: Sums.Sum(cast[v := row], Through(x)) == Sums.Sum(cast, Through(x))
  {
    forall p ensures Sums.Sum(cast[v := row], Backing(p)) == Sums.Sum(cast, Backing(p)) {
      Sums.SumPut(cast, Backing(p), v, row);
    }
    forall x ensures Sums.Sum(cast[v := row], Through(x)) == Sums.Sum(cast, Through(x)) {
      Sums.SumPut(cast, Through(x), v, row);
    }
  }

  /** The sums as any one row changes. */
  lemma PutCast(cast: Voters, v: Name, row: Voter)
    requires v in cast
    ensures forall p :: Sums.Sum(cast[v := row], Backing(p))
                     == Sums.Sum(cast, Backing(p)) - Backing(p)(v, cast[v]) + Backing(p)(v, row)
    ensures forall x :: Sums.Sum(cast[v := row], Through(x))
                     == Sums.Sum(cast, Through(x)) - Through(x)(v, cast[v]) + Through(x)(v, row)
  {
    forall p
      ensures Sums.Sum(cast[v := row], Backing(p)) == Sums.Sum(cast, Backing(p)) - Backing(p)(v, cast[v]) + Backing(p)(v, row)
    {
      Sums.SumPut(cast, Backing(p), v, row);
    }
    forall x
      ensures Sums.Sum(cast[v := row], Through(x)) == Sums.Sum(cast, Through(x)) - Through(x)(v, cast[v]) + Through(x)(v, row)
    {
      Sums.SumPut(cast, Through(x), v, row);
    }
  }

  // ---------------------------------------------------------------------------------------------
  // Passing a weight change to producers.

  lemma EachMoves(producers: seq<Name>, delta: real)
    requires Ascending(producers)
    ensures Distinct(Each(producers, delta))
    ensures forall p :: MovedTo(Each(producers, delta), p) == if p in producers then delta else 0.0
  {
    var ds := Each(producers, delta);
    forall p
      ensures MovedTo(ds, p) == if p in producers then delta else 0.0
    {
      if p in producers {
        var i :| 0 <= i < |producers| && producers[i] == p;
        MovedToOne(ds, i);
      } else {
        MovedToNone(ds, p);
      }
    }
  }

  /** The accounts in agreement do not depend on who votes for whom. */
  lemma AgreementIgnoresVoters(s: State, t: State)
    requires t == s.(voters := t.voters, inexact := t.inexact)
    ensures InAgreement(t) == InAgreement(s)
  {
  }

  /** Moving to every producer the difference between an account's old and new backing of it. */
  lemma MovedBacking(s: State, t: State, v: Name, row: Voter, ds: seq<Delta>, cause: Cause)
    requires BackingExact(s) && InAgreement(s)
    requires v in s.voters && Distinct(ds)
    requires forall p :: MovedTo(ds, p) == Backing(p)(v, row) - Backing(p)(v, s.voters[v])
    requires MoveVotes(s, ds, cause) == Ok(t)
    ensures OnlyVotesMove(s, t)
    ensures InAgreement(t)
    ensures BackingExact(t.(voters := s.voters[v := row]))
  {
    hide Sums.Sum, InAgreement, MoveVotes;
    PutCast(s.voters, v, row);
    forall d | d in ds && d.producer in s.producers
      ensures s.producers[d.producer].votes + d.votes >= 0.0
    {
      var i :| 0 <= i < |ds| && ds[i] == d;
      MovedToOne(ds, i);
      BackedNonNegative(s.voters[v := row], d.producer);
    }
    MoveVotesKeeps(s, ds, cause);
  }

  /** A weight change passed on reaches registered producers only. */
  lemma {:induction false} PassedRegistered(s: State, ds: seq<Delta>)
    requires ShiftAll(s, ds, PassedOn).Ok?
    ensures forall d :: d in ds ==> d.producer in s.producers
    decreases |ds|
  {
    if ds != [] {
      PassedRegistered(s, ds[..|ds| - 1]);
      ShiftAllFrame(s, ds[..|ds| - 1], PassedOn);
      assert ds == ds[..|ds| - 1] + [ds[|ds| - 1]];
    }
  }

  lemma EachRegistered(s: State, producers: seq<Name>, delta: real)
    requires PassToProducers(s, producers, delta).Ok?
    ensures forall p :: p in producers ==> p in s.producers
  {
    var ds := Each(producers, delta);
    PassedRegistered(s, ds);
    forall p | p in producers
      ensures p in s.producers
    {
      var i :| 0 <= i < |producers| && producers[i] == p;
      assert ds[i] in ds;
    }
  }

  /** An account that votes directly changes its weight. */
  lemma DirectExact(s: State, t: State, v: Name, pending: Voters, weight: real)
    requires Tallies(s, pending) && v in s.voters && v !in pending
    requires BallotFormed(v, s.voters[v]) && s.voters[v].proxy.None?
    requires var delta := weight - s.voters[v].weight; !(-1.0 <= delta <= 1.0) && !Distorted(s.voters[v], weight)
    requires PassToProducers(s, s.voters[v].producers, weight - s.voters[v].weight) == Ok(t)
    ensures Tallies(SetWeight(t, v, weight), pending)
  {
    hide Sums.Sum, InAgreement, MoveVotes, MovedTo;
    var r := s.voters[v];
    var row := r.(weight := weight);
    var ds := Each(r.producers, weight - r.weight);
    EachMoves(r.producers, weight - r.weight);
    EachRegistered(s, r.producers, weight - r.weight);
    MovedBacking(s, t, v, row, ds, PassedOn);
    AgreementIgnoresVoters(t, SetWeight(t, v, weight));
    DirectProxies(s.voters, pending, v, row);
  }

  /** A weight whose change is not passed on, and stands for the same votes. */
  lemma SmallExact(s: State, v: Name, pending: Voters, weight: real)
    requires Tallies(s, pending) && v in s.voters && v !in pending
    requires var delta := weight - s.voters[v].weight; -1.0 <= delta <= 1.0 && !Distorted(s.voters[v], weight)
    ensures Tallies(SetWeight(s, v, weight), pending)
  {
    hide Sums.Sum, InAgreement;
    var row := s.voters[v].(weight := weight);
    AgreementIgnoresVoters(s, SetWeight(s, v, weight));
    SameCast(s.voters, v, row);
    MergePut(s.voters, pending, v, row);
    SameCast(s.voters + pending, v, row);
  }

  /** Proxies do not depend on the weight of an account that uses none. */
  lemma DirectProxies(voters: Voters, pending: Voters, v: Name, row: Voter)
    requires v in voters && v !in pending && voters[v].proxy.None?
    requires row == voters[v].(weight := row.weight)
    requires ProxiesExact(voters, voters + pending)
    ensures ProxiesExact(voters[v := row], voters[v := row] + pending)
  {
    hide Sums.Sum;
    MergePut(voters, pending, v, row);
    PutCast(voters + pending, v, row);
  }

  lemma BackedNonNegative(voters: Voters, p: Name)
    ensures Sums.Sum(voters, Backing(p)) >= 0.0
  {
    Sums.SumBounds(voters, Backing(p));
  }

  // ---------------------------------------------------------------------------------------------
  // Passing a weight change along a chain.

  /** A proxy carries the weight that its user `v` is about to cast instead of its present one. */
  lemma CarryChange(voters: Voters, pending: Voters, v: Name, p: Name, weight: real, delta: real)
    requires v in voters && p in voters && v != p && v !in pending && p !in pending
    requires voters[v].proxy == Some(p) && delta == CastWeight(weight) - CastWeight(voters[v].weight)
    requires ProxiesExact(voters, voters + pending)
    ensures var carrying := voters[p].(proxied := voters[p].proxied + delta);
            ProxiesExact(voters[p := carrying], voters[p := carrying] + pending[v := voters[v].(weight := weight)])
  {
    hide Sums.Sum;
    var carrying := voters[p].(proxied := voters[p].proxied + delta);
    var row := voters[v].(weight := weight);
    var cast := voters + pending;
    SameCast(cast, p, carrying);
    MergePut(voters, pending, p, carrying);
    PutMerge(voters[p := carrying], pending, v, row);
    PutCast(cast[p := carrying], v, row);
  }

  /** The state in which a proxy's own change is passed on, its user's new weight pending. */
  lemma StepUpChain(s: State, v: Name, pending: Voters, p: Name, weight: real, delta: real)
    requires Tallies(s, pending) && v in s.voters && v !in pending
    requires s.voters[v].proxy == Some(p) && p in s.voters && p !in pending && p != v
    requires delta == CastWeight(weight) - CastWeight(s.voters[v].weight)
    ensures Tallies(AddProxied(s, p, delta), pending[v := s.voters[v].(weight := weight)])
  {
    hide Sums.Sum, InAgreement;
    var carrying := s.voters[p].(proxied := s.voters[p].proxied + delta);
    AgreementIgnoresVoters(s, AddProxied(s, p, delta));
    SameCast(s.voters, p, carrying);
    CarryChange(s.voters, pending, v, p, weight, delta);
  }

  /** Completing a step: the user's row takes the weight that was pending. */
  lemma StepDownChain(s: State, v: Name, pending: Voters, row: Voter)
    requires v in s.voters && v !in pending && s.voters[v].proxy.Some? && s.voters[v].producers == []
    requires row == s.voters[v].(weight := row.weight)
    requires Tallies(s, pending[v := row])
    ensures Tallies(SetWeight(s, v, row.weight), pending)
  {
    hide Sums.Sum, InAgreement;
    AgreementIgnoresVoters(s, SetWeight(s, v, row.weight));
    PutMerge(s.voters, pending, v, row);
    MergePut(s.voters, pending, v, row);
    PutCast(s.voters, v, row);
    assert pending[v := row][v] == row;
  }

  /** Passing on keeps the tallies exact, unless a weight stored on the way was distorted. */
  ghost predicate Exactly(r: Result<State>, pending: Voters) {
    r.Ok? && !r.value.inexact ==> Tallies(r.value, pending)
  }

  lemma {:induction false} PropagateExact(s: State, v: Name, seen: set<Name>, rank: map<Name, nat>, pending: Voters)
    requires Formed(s) && Ranked(s.voters, rank) && v in s.voters
    requires forall u :: u in seen ==> u in rank && rank[v] < rank[u]
    requires pending.Keys <= seen && Tallies(s, pending)
    ensures Exactly(Propagate(s, v, seen), pending)
    decreases s.voters.Keys - seen
  {
    hide Tallies, VoteWeight, PassOn;
    assert BallotFormed(v, s.voters[v]);
    PassOnExact(s, v, VoteWeight(s, s.voters[v]), seen, rank, pending);
  }

  /** The state after a change was passed on, once the account's own row is updated too. */
  ghost predicate PassedExactly(s: State, v: Name, weight: real, seen: set<Name>, pending: Voters)
    requires v in s.voters && v !in seen
  {
    var r := PassOn(s, v, weight - s.voters[v].weight, seen);
    r.Ok? ==> v in r.value.voters && Exactly(Ok(SetWeight(r.value, v, weight)), pending)
  }

  lemma {:induction false} PassOnExact(
    s: State, v: Name, weight: real, seen: set<Name>, rank: map<Name, nat>, pending: Voters)
    requires Formed(s) && Ranked(s.voters, rank) && v in s.voters && v !in seen
    requires forall u :: u in seen ==> u in rank && rank[v] < rank[u]
    requires pending.Keys <= seen && Tallies(s, pending)
    ensures PassedExactly(s, v, weight, seen, pending)
    decreases s.voters.Keys - seen, 1
  {
    hide Tallies, PassToProducers, Propagate, BallotFormed, SameBallots, Distorted;
    var delta := weight - s.voters[v].weight;
    if -1.0 <= delta <= 1.0 {
      if !Distorted(s.voters[v], weight) {
        SmallExact(s, v, pending, weight);
      }
    } else if s.voters[v].proxy.Some? {
      ChainExact(s, v, weight, seen, rank, pending);
    } else {
      PassOnEnds(s, v, delta, seen, rank);
      var t := PassToProducers(s, s.voters[v].producers, delta);
      if t.Ok? && !Distorted(s.voters[v], weight) {
        DirectExact(s, t.value, v, pending, weight);
      }
    }
  }

  lemma ProxyBallot(s: State, v: Name)
    requires Formed(s) && v in s.voters && s.voters[v].proxy.Some?
    ensures s.voters[v].producers == []
  {
    assert BallotFormed(v, s.voters[v]);
  }

  lemma PassedOnChange(r: Voter, weight: real)
    requires !(-1.0 <= weight - r.weight <= 1.0) && HasBallot(r)
    ensures !Distorted(r, weight) ==> weight - r.weight == CastWeight(weight) - CastWeight(r.weight)
  {
  }

  lemma {:induction false} ChainExact(
    s: State, v: Name, weight: real, seen: set<Name>, rank: map<Name, nat>, pending: Voters)
    requires Formed(s) && Ranked(s.voters, rank) && v in s.voters && v !in seen
    requires forall u :: u in seen ==> u in rank && rank[v] < rank[u]
    requires pending.Keys <= seen && Tallies(s, pending)
    requires s.voters[v].proxy.Some?
    requires var delta := weight - s.voters[v].weight; !(-1.0 <= delta <= 1.0)
    ensures PassedExactly(s, v, weight, seen, pending)
    decreases s.voters.Keys - seen, 0
  {
    hide Tallies, Propagate, Formed, Distorted, ValidBallot;
    ProxyBallot(s, v);
    var p, row := s.voters[v].proxy.value, s.voters[v].(weight := weight);
    var delta := weight - s.voters[v].weight;
    var s1 := AddProxied(s, p, delta);
    CarryingKeepsGraph(s, p, delta);
    PropagateSpares(s1, p, seen + {v}, rank, v);
    var s2 := Propagate(s1, p, seen + {v});
    PassedOnChange(s.voters[v], weight);
    if s2.Ok? && !Distorted(s.voters[v], weight) {
      StepUpChain(s, v, pending, p, weight, delta);
      PropagateExact(s1, p, seen + {v}, rank, pending[v := row]);
      if !s2.value.inexact {
        StepDownChain(s2.value, v, pending, row);
      }
    }
  }
}
