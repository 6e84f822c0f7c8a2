/** Every voting action keeps the proxy graph acyclic and the tallies exact. */
module VoteActions {
  import opened Basics
  import opened Voting
  import opened VotePay
  import opened ProxyGraph
  import opened VoteTallies
  import opened VoteBallots
  import Sums = RealSums

  /**
   The state of the tables. Whatever happened, the graph is acyclic; as long as no stored weight was
   distorted, the tallies and accumulators are the sums they stand for.
   */
  ghost predicate Sound(s: State) {
    Graph(s) && (!s.inexact ==> Exact(s))
  }

  /** What a step from a sound state must come to. */
  ghost predicate Kept(s: State, r: Result<State>) {
    && r != Err(Endless)
    && (Registered(s) ==> r != Err(Broken))
    && (r.Ok? ==> Sound(r.value))
  }

  /** A row may change in whatever no one votes by. */
  lemma RowKeepsTallies(s: State, v: Name, row: Voter)
    requires Tallies(s, map[]) && v in s.voters
    requires row == s.voters[v].(staked := row.staked, isProxy := row.isProxy)
    ensures Tallies(s.(voters := s.voters[v := row]), map[])
  {
    hide Sums.Sum, InAgreement;
    var t := s.(voters := s.voters[v := row]);
    AgreementIgnoresVoters(s, t);
    SameCast(s.voters, v, row);
    assert s.voters + map[] == s.voters && t.voters + map[] == t.voters;
  }

  lemma RowKeepsSound(s: State, v: Name, row: Voter)
    requires Sound(s) && v in s.voters && BallotFormed(v, row)
    requires row == s.voters[v].(staked := row.staked, isProxy := row.isProxy)
    ensures Sound(s.(voters := s.voters[v := row]))
    ensures Registered(s) ==> Registered(s.(voters := s.voters[v := row]))
  {
    hide Tallies, Acyclic;
    ReballotKeepsSameProxy(s.voters, v, row);
    if !s.inexact {
      RowKeepsTallies(s, v, row);
    }
  }

  lemma ReballotKeepsSameProxy(voters: map<Name, Voter>, v: Name, row: Voter)
    requires Acyclic(voters) && v in voters && row.proxy == voters[v].proxy
    ensures Acyclic(voters[v := row])
  {
    var rank :| Ranked(voters, rank);
    assert Ranked(voters[v := row], rank);
  }

  lemma UpdateVotesKept(s: State, v: Name, proxy: Option<Name>, producers: seq<Name>, voting: bool)
    requires Sound(s)
    requires !voting ==> v in s.voters && proxy == s.voters[v].proxy && producers == s.voters[v].producers
    ensures Kept(s, UpdateVotes(s, v, proxy, producers, voting))
  {
    hide UpdateVotes, Graph, Tallies, Registered;
    UpdateVotesKeepsGraph(s, v, proxy, producers, voting);
    if !s.inexact {
      UpdateVotesKeepsExact(s, v, proxy, producers, voting);
    } else {
      StaysInexact(s, v, proxy, producers, voting);
    }
  }

  lemma {:induction false} PropagateStaysInexact(s: State, v: Name, seen: set<Name>)
    requires s.inexact
    ensures var r := Propagate(s, v, seen); r.Ok? ==> r.value.inexact
    decreases s.voters.Keys - seen
  {
    if v in s.voters && v !in seen {
      var r := s.voters[v];
      var delta := VoteWeight(s, r) - r.weight;
      if !(-1.0 <= delta <= 1.0) {
        if r.proxy.None? {
          MoveStaysInexact(s, Each(r.producers, delta), PassedOn);
        } else if r.proxy.value in s.voters {
          PropagateStaysInexact(AddProxied(s, r.proxy.value, delta), r.proxy.value, seen + {v});
        }
      }
    }
  }

  lemma MoveStaysInexact(s: State, ds: seq<Delta>, cause: Cause)
    ensures var r := MoveVotes(s, ds, cause); r.Ok? ==> r.value.inexact == s.inexact
  {
    ShiftAllFrame(s, ds, cause);
  }

  lemma StaysInexact(s: State, v: Name, proxy: Option<Name>, producers: seq<Name>, voting: bool)
    requires s.inexact
    ensures var r := UpdateVotes(s, v, proxy, producers, voting); r.Ok? ==> r.value.inexact
  {
    hide Propagate, MoveVotes, Recast;
    if v in s.voters {
      var r := s.voters[v];
      var weight := VoteWeight(s, r);
      var s0 := Activate(s, r);
      if r.proxy.Some? && r.proxy.value in s.voters {
        PropagateStaysInexact(AddProxied(s0, r.proxy.value, -r.weight), r.proxy.value, {v});
      }
      var u := Undo(s0, v, r);
      if u.Ok? {
        if proxy.Some? && proxy.value in u.value.voters {
          PropagateStaysInexact(AddProxied(u.value, proxy.value, weight), proxy.value, {v});
        }
        var c := CastProxy(u.value, v, proxy, weight, voting);
        if c.Ok? {
          MoveStaysInexact(c.value, Recast(r, weight, proxy, producers), Cast(voting));
        }
      }
    }
  }

  /** A vote keeps the tables sound even if the revalued stake is negative. */
  lemma VoteProducerKept(
    s: State, v: Name, proxy: Option<Name>, producers: seq<Name>, rexDelta: int, holdsRex: bool)
    requires Sound(s)
    ensures Kept(s, VoteProducer(s, v, proxy, producers, rexDelta, holdsRex))
  {
    hide UpdateVotes, Exact, Acyclic, Registered;
    if v in s.voters {
      var row := s.voters[v].(staked := s.voters[v].staked + rexDelta);
      assert BallotFormed(v, s.voters[v]);
      RowKeepsSound(s, v, row);
      UpdateVotesKept(s.(voters := s.voters[v := row]), v, proxy, producers, true);
    } else {
      UpdateVotesKept(s, v, proxy, producers, true);
    }
  }

  /** Nobody's vote goes to an account without a voter row, or to a producer without a producer row. */
  lemma NoBacking(s: State, p: Name)
    requires CastRegistered(s) && p !in s.producers
    ensures Sums.Sum(s.voters, Backing(p)) == 0.0
  {
    Sums.SumZero(s.voters, Backing(p));
  }

  lemma NoThrough(voters: map<Name, Voter>, x: Name)
    requires Acyclic(voters) && x !in voters
    ensures Sums.Sum(voters, Through(x)) == 0.0
  {
    var rank :| Ranked(voters, rank);
    Sums.SumZero(voters, Through(x));
  }

  lemma NewVoterKeepsSound(s: State, v: Name, staked: int, isProxy: bool)
    requires Sound(s) && v !in s.voters
    ensures Sound(s.(voters := s.voters[v := NewVoter(staked, isProxy)]))
  {
    var row := NewVoter(staked, isProxy);
    var t := s.(voters := s.voters[v := row]);
    NewVoterKeepsAcyclic(s.voters, v, row);
    if !s.inexact {
      NewVoterKeepsTallies(s, v, row);
    }
  }

  lemma NewVoterKeepsTallies(s: State, v: Name, row: Voter)
    requires Graph(s) && Tallies(s, map[]) && v !in s.voters
    requires row == NewVoter(row.staked, row.isProxy)
    ensures Tallies(s.(voters := s.voters[v := row]), map[])
  {
    hide InAgreement, Sums.Sum;
    var t := s.(voters := s.voters[v := row]);
    AgreementIgnoresVoters(s, t);
    assert s.voters + map[] == s.voters && t.voters + map[] == t.voters;
    forall p
      ensures Sums.Sum(t.voters, Backing(p)) == Sums.Sum(s.voters, Backing(p))
    {
      Sums.SumPut(s.voters, Backing(p), v, row);
    }
    forall x
      ensures Sums.Sum(t.voters, Through(x)) == Sums.Sum(s.voters, Through(x))
    {
      Sums.SumPut(s.voters, Through(x), v, row);
    }
    NoThrough(s.voters, v);
  }

  lemma ChangeStakeKept(s: State, v: Name, delta: int)
    requires Sound(s)
    ensures Kept(s, ChangeStake(s, v, delta))
  {
    hide UpdateVotes, Exact, Acyclic, Registered;
    if v in s.voters {
      var row := s.voters[v].(staked := s.voters[v].staked + delta);
      assert BallotFormed(v, s.voters[v]);
      RowKeepsSound(s, v, row);
      UpdateVotesKept(s.(voters := s.voters[v := row]), v, row.proxy, row.producers, false);
    } else if delta >= 0 {
      NewVoterKeepsSound(s, v, delta, false);
    }
  }

  lemma RegProxyKept(s: State, v: Name, isProxy: bool)
    requires Sound(s)
    ensures Kept(s, RegProxy(s, v, isProxy))
  {
    hide Propagate, Tallies, SameBallots, Registered;
    if v !in s.voters {
      NewVoterKeepsSound(s, v, 0, isProxy);
    } else if isProxy != s.voters[v].isProxy && (!isProxy || s.voters[v].proxy.None?) {
      var row := s.voters[v].(isProxy := isProxy);
      var t := s.(voters := s.voters[v := row]);
      assert BallotFormed(v, s.voters[v]);
      ReballotKeepsSameProxy(s.voters, v, row);
      GraphRank(t);
      var rank :| Ranked(t.voters, rank);
      PropagateEnds(t, v, {}, rank);
      var r := Propagate(t, v, {});
      if r.Ok? {
        SameBallotsKeepGraph(t, r.value, {});
      }
      RowKeepsSound(s, v, row);
      if s.inexact {
        PropagateStaysInexact(t, v, {});
      } else {
        PropagateExact(t, v, {}, rank, map[]);
      }
    }
  }

  /** Producer rows may change in whatever votes and shares do not depend on. */
  lemma ProducerRowKeepsSound(s: State, p: Name, row: Producer)
    requires Sound(s) && p in s.producers
    requires row == s.producers[p].(active := row.active, unpaid := row.unpaid)
    ensures Sound(s.(producers := s.producers[p := row]))
  {
    hide Sums.Sum, Acyclic, Growth;
    if !s.inexact {
      Sums.SumPut(s.producers, VotesOf, p, row);
      Sums.SumPut(s.producers, CountedVotes, p, row);
      Sums.SumPut(s.producers, CountedBase, p, row);
    }
  }

  lemma NewProducerKeepsSound(s: State, p: Name)
    requires Sound(s) && p !in s.producers && s.now > 0
    ensures Sound(s.(producers := s.producers[p := Producer(0.0, true, 0, s.now, 0.0, s.now)]))
  {
    hide Sums.Sum, Acyclic;
    if !s.inexact {
      var row := Producer(0.0, true, 0, s.now, 0.0, s.now);
      Sums.SumPut(s.producers, VotesOf, p, row);
      Sums.SumPut(s.producers, CountedVotes, p, row);
      Sums.SumPut(s.producers, CountedBase, p, row);
      NoBacking(s, p);
    }
  }

  /** Time passes; stakes may be worth more votes, which nobody's cast weight notices. */
  lemma TimeKeepsSound(s: State, now: int, factor: real)
    requires Sound(s) && now >= s.now && factor >= 0.0
    ensures Sound(s.(now := now, factor := factor))
  {
    if !s.inexact {
      GrowthZero(now);
      GrowthZero(s.now);
    }
  }
}
