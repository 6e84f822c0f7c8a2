/**
 The "uses proxy" graph. A proxy can be unregistered and then use a proxy itself, so chains of any
 length arise; they never close into a cycle, and passing a weight change along one ends.
 */
module ProxyGraph {
  import opened Basics
  import opened Voting
  import VotePay

  /** A rank that falls along every edge. */
  ghost predicate Ranked(voters: map<Name, Voter>, rank: map<Name, nat>) {
    && voters.Keys <= rank.Keys
    && (forall v :: v in voters && voters[v].proxy.Some? ==>
         voters[v].proxy.value in voters && rank[voters[v].proxy.value] < rank[v])
  }

  ghost predicate Acyclic(voters: map<Name, Voter>) {
    exists rank :: Ranked(voters, rank)
  }

  /** Every stored ballot is a valid one, and no registered proxy uses a proxy. */
  ghost predicate BallotFormed(v: Name, r: Voter) {
    ValidBallot(v, r.proxy, r.producers) && (r.proxy.Some? ==> !r.isProxy)
  }

  ghost predicate Formed(s: State) {
    forall v :: v in s.voters ==> BallotFormed(v, s.voters[v])
  }

  ghost predicate Graph(s: State) {
    Formed(s) && Acyclic(s.voters)
  }

  /** Only registered producers are voted for. */
  ghost predicate Registered(s: State) {
    forall v, p :: v in s.voters && p in s.voters[v].producers ==> p in s.producers
  }

  /** Accounts outside `fixed` may change in the weights they cast and carry, and in nothing else. */
  ghost predicate OnlyWeights(s: map<Name, Voter>, t: map<Name, Voter>, fixed: set<Name>) {
    && t.Keys == s.Keys
    && (forall v :: v in s ==> t[v] == s[v].(weight := t[v].weight, proxied := t[v].proxied))
    && (forall v :: v in s && v in fixed ==> t[v] == s[v])
  }

  /** Neither the ballots nor the set of producers change. */
  ghost predicate SameBallots(s: State, t: State, fixed: set<Name>) {
    && OnlyWeights(s.voters, t.voters, fixed)
    && VotePay.OnlyVotesMove(s.(voters := t.voters, inexact := t.inexact), t)
    && (s.inexact ==> t.inexact)
  }

  lemma SameBallotsChain(s: State, t: State, u: State, fixed: set<Name>)
    requires SameBallots(s, t, fixed) && SameBallots(t, u, fixed)
    ensures SameBallots(s, u, fixed)
  {
  }

  lemma SameBallotsKeepGraph(s: State, t: State, fixed: set<Name>)
    requires SameBallots(s, t, fixed)
    ensures Formed(s) ==> Formed(t)
    ensures Acyclic(s.voters) ==> Acyclic(t.voters)
    ensures Registered(s) ==> Registered(t)
    ensures forall rank :: Ranked(s.voters, rank) ==> Ranked(t.voters, rank)
  {
    if Formed(s) {
      forall v | v in t.voters
        ensures BallotFormed(v, t.voters[v])
      {
        assert BallotFormed(v, s.voters[v]);
      }
    }
    if Acyclic(s.voters) {
      var rank :| Ranked(s.voters, rank);
      assert Ranked(t.voters, rank);
    }
  }

  lemma CarryingSameBallots(s: State, p: Name, delta: real, fixed: set<Name>)
    requires p in s.voters && p !in fixed
    ensures SameBallots(s, AddProxied(s, p, delta), fixed)
  {
  }

  lemma CarryingKeepsGraph(s: State, p: Name, delta: real)
    requires p in s.voters
    ensures var t := AddProxied(s, p, delta);
            && t.voters.Keys == s.voters.Keys
            && (Formed(s) ==> Formed(t)) && (Registered(s) ==> Registered(t))
            && (forall rank :: Ranked(s.voters, rank) ==> Ranked(t.voters, rank))
  {
    hide Formed, Registered, Ranked;
    CarryingSameBallots(s, p, delta, {});
    SameBallotsKeepGraph(s, AddProxied(s, p, delta), {});
  }

  lemma PassToProducersFails(s: State, producers: seq<Name>, delta: real, fixed: set<Name>)
    ensures var r := PassToProducers(s, producers, delta);
            && (r.Err? ==> r.error == Broken)
            && ((forall p :: p in producers ==> p in s.producers) ==> r.Ok?)
            && (r.Ok? ==> SameBallots(s, r.value, fixed))
  {
    var ds := Each(producers, delta);
    VotePay.ShiftAllFails(s, ds, PassedOn);
    VotePay.ShiftAllFrame(s, ds, PassedOn);
    if forall p :: p in producers ==> p in s.producers {
      forall d | d in ds
        ensures d.producer in s.producers
      {
        var i :| 0 <= i < |ds| && ds[i] == d;
        assert producers[i] in producers;
      }
      VotePay.ShiftAllSucceeds(s, ds, PassedOn);
    }
  }

  /**
   A weight change passed on: the recursion returns; it succeeds if producers voted for are
   registered; and it changes no ballot and nothing of the accounts already seen.
   */
  ghost predicate Ends(s: State, r: Result<State>, fixed: set<Name>) {
    && r != Err(Endless) && r != Err(Rejected)
    && (Registered(s) ==> r.Ok?)
    && (r.Ok? ==> SameBallots(s, r.value, fixed))
  }

  /** Passing on ends at an account that ranks below all accounts already seen: it meets none of them. */
  lemma {:induction false} PropagateEnds(s: State, v: Name, seen: set<Name>, rank: map<Name, nat>)
    requires Formed(s) && Ranked(s.voters, rank) && v in s.voters
    requires forall u :: u in seen ==> u in rank && rank[v] < rank[u]
    ensures Ends(s, Propagate(s, v, seen), seen)
    decreases s.voters.Keys - seen
  {
    hide PassOn;
    assert BallotFormed(v, s.voters[v]);
    PassOnEnds(s, v, VoteWeight(s, s.voters[v]) - s.voters[v].weight, seen, rank);
  }

  /** In particular the accounts already seen are left alone. */
  lemma PropagateSpares(s: State, v: Name, seen: set<Name>, rank: map<Name, nat>, u: Name)
    requires Formed(s) && Ranked(s.voters, rank) && v in s.voters
    requires forall u :: u in seen ==> u in rank && rank[v] < rank[u]
    requires u in seen && u in s.voters
    ensures var r := Propagate(s, v, seen);
            r.Ok? ==> r.value.voters[u] == s.voters[u]
  {
    hide Propagate;
    PropagateEnds(s, v, seen, rank);
  }

  lemma {:induction false} PassOnEnds(s: State, v: Name, delta: real, seen: set<Name>, rank: map<Name, nat>)
    requires Formed(s) && Ranked(s.voters, rank) && v in s.voters && v !in seen
    requires forall u :: u in seen ==> u in rank && rank[v] < rank[u]
    ensures Ends(s, PassOn(s, v, delta, seen), seen + {v})
    decreases s.voters.Keys - seen, 0
  {
    var r := s.voters[v];
    if !(-1.0 <= delta <= 1.0) {
      hide PassToProducers, Propagate, SameBallots;
      if r.proxy.None? {
        PassToProducersFails(s, r.producers, delta, seen + {v});
      } else {
        var p := r.proxy.value;
        var s1 := AddProxied(s, p, delta);
        CarryingSameBallots(s, p, delta, seen + {v});
        SameBallotsKeepGraph(s, s1, seen + {v});
        PropagateEnds(s1, p, seen + {v}, rank);
        if Propagate(s1, p, seen + {v}).Ok? {
          SameBallotsChain(s, s1, Propagate(s1, p, seen + {v}).value, seen + {v});
        }
      }
    }
  }

  /**
   Pointing an account at a proxy that uses none closes no cycle: let the new proxy rank lowest.
   Pointing it at nobody, or back at its present proxy, closes none either.
   */
  lemma ReballotKeepsAcyclic(voters: map<Name, Voter>, v: Name, row: Voter)
    requires Acyclic(voters) && v in voters
    requires row.proxy.Some? ==>
      var p := row.proxy.value;
      p != v && p in voters && (voters[p].proxy.None? || voters[v].proxy == row.proxy)
    ensures Acyclic(voters[v := row])
  {
    var rank :| Ranked(voters, rank);
    var next := voters[v := row];
    if row.proxy.Some? && voters[row.proxy.value].proxy.None? {
      var p := row.proxy.value;
      var raised: map<Name, nat> := map u | u in rank :: if u == p then 0 else rank[u] + 1;
      assert Ranked(next, raised);
    } else {
      assert Ranked(next, rank);
    }
  }

  /** A new account, which nobody uses yet, closes no cycle. */
  lemma NewVoterKeepsAcyclic(voters: map<Name, Voter>, v: Name, row: Voter)
    requires Acyclic(voters) && v !in voters && row.proxy.None?
    ensures Acyclic(voters[v := row])
  {
    var rank :| Ranked(voters, rank);
    assert Ranked(voters[v := row], rank[v := 0]);
  }
}
