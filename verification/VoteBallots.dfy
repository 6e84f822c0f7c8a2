/** Casting a vote keeps the proxy graph acyclic and the tallies exact. */
module VoteBallots {
  import opened Basics
  import opened Voting
  import opened VotePay
  import opened ProxyGraph
  import opened VoteTallies
  import SortedIndex
  import Sums = RealSums

  /** Everything that is true of the tables as long as no stored weight was distorted. */
  ghost predicate Exact(s: State) {
    Tallies(s, map[])
  }

  // ---------------------------------------------------------------------------------------------
  // The votes moved between producers.

  function BallotChange(before: seq<Name>, oldWeight: real, after: seq<Name>, newWeight: real, p: Name): real {
    (if p in after then newWeight else 0.0) - (if p in before then oldWeight else 0.0)
  }

  lemma NamesDistinct(before: seq<Name>, oldWeight: real, after: seq<Name>, newWeight: real)
    ensures Distinct(BallotDeltas(before, oldWeight, after, newWeight))
  {
    hide BallotNames;
  }

  lemma BallotDeltasMove(before: seq<Name>, oldWeight: real, after: seq<Name>, newWeight: real)
    ensures var ds := BallotDeltas(before, oldWeight, after, newWeight);
            && Distinct(ds)
            && (forall p :: MovedTo(ds, p) == BallotChange(before, oldWeight, after, newWeight, p))
            && (forall d :: d in ds ==> d.producer in before || d.producer in after)
            && (forall d :: d in ds && d.isNew ==> d.producer in after)
  {
    hide BallotNames, Ascending;
    var ds := BallotDeltas(before, oldWeight, after, newWeight);
    var names := BallotNames(before, after);
    assert Distinct(ds) by {
      NamesDistinct(before, oldWeight, after, newWeight);
    }
    forall d | d in ds
      ensures d.producer in before || d.producer in after
      ensures d.isNew ==> d.producer in after
    {
      var i :| 0 <= i < |ds| && ds[i] == d;
      assert names[i] in names;
    }
    forall p
      ensures MovedTo(ds, p) == BallotChange(before, oldWeight, after, newWeight, p)
    {
      if p in names {
        var i :| 0 <= i < |names| && names[i] == p;
        MovedToOne(ds, i);
      } else {
        MovedToNone(ds, p);
      }
    }
  }

  lemma BallotDeltasName(before: seq<Name>, oldWeight: real, after: seq<Name>, newWeight: real, p: Name)
    requires p in after
    ensures exists d :: d in BallotDeltas(before, oldWeight, after, newWeight) && d.producer == p && d.isNew
  {
    var names := BallotNames(before, after);
    assert p in names;
    var i :| 0 <= i < |names| && names[i] == p;
    assert BallotDeltas(before, oldWeight, after, newWeight)[i].producer == p;
  }

  /** A vote goes through only if every producer newly voted for is registered. */
  lemma {:induction false} ShiftAllChecksNew(s: State, ds: seq<Delta>, voting: bool)
    requires ShiftAll(s, ds, Cast(voting)).Ok?
    ensures forall d :: d in ds && d.isNew ==> d.producer in s.producers
    decreases |ds|
  {
    if ds != [] {
      ShiftAllChecksNew(s, ds[..|ds| - 1], voting);
      ShiftAllFrame(s, ds[..|ds| - 1], Cast(voting));
      assert ds == ds[..|ds| - 1] + [ds[|ds| - 1]];
    }
  }

  // ---------------------------------------------------------------------------------------------
  // The graph.

  /** The first two stages of a vote pass weight changes on; neither meets the voter again. */
  lemma UndoEnds(s: State, v: Name, rank: map<Name, nat>)
    requires Formed(s) && Ranked(s.voters, rank) && v in s.voters
    ensures Ends(s, Undo(s, v, s.voters[v]), {v})
  {
    hide Propagate, SameBallots, Formed, Registered;
    var r := s.voters[v];
    if r.weight > 0.0 && r.proxy.Some? {
      var p := r.proxy.value;
      EndsFromCarrying(s, p, -r.weight, v, rank);
    } else {
      assert SameBallots(s, s, {v}) by {
        SameBallotsSelf(s, {v});
      }
    }
  }

  lemma SameBallotsSelf(s: State, fixed: set<Name>)
    ensures SameBallots(s, s, fixed)
  {
  }

  lemma EndsFromCarrying(s: State, p: Name, delta: real, v: Name, rank: map<Name, nat>)
    requires Formed(s) && Ranked(s.voters, rank) && p in s.voters && v in rank && rank[p] < rank[v]
    ensures Ends(s, Propagate(AddProxied(s, p, delta), p, {v}), {v})
  {
    hide Propagate, SameBallots, Formed, Registered;
    var s1 := AddProxied(s, p, delta);
    CarryingKeepsGraph(s, p, delta);
    CarryingSameBallots(s, p, delta, {v});
    PropagateEnds(s1, p, {v}, rank);
    var r := Propagate(s1, p, {v});
    if r.Ok? {
      SameBallotsChain(s, s1, r.value, {v});
    }
  }

  /** A proxy that is registered can be ranked lowest, as it uses no proxy itself. */
  lemma RankLowest(voters: map<Name, Voter>, v: Name, p: Name)
    requires Acyclic(voters) && v in voters && p in voters && p != v
    requires voters[p].proxy.None? || voters[v].proxy == Some(p)
    ensures exists rank :: Ranked(voters, rank) && rank[p] < rank[v]
  {
    var rank :| Ranked(voters, rank);
    if voters[p].proxy.None? {
      var raised: map<Name, nat> := map u | u in rank :: if u == p then 0 else rank[u] + 1;
      assert Ranked(voters, raised);
    }
  }

  /** What a voter's proxy may be: one that is registered, or the one already used. */
  ghost predicate MayUse(s: State, v: Name, proxy: Option<Name>, voting: bool)
    requires v in s.voters
  {
    proxy.Some? ==> proxy.value != v && (voting || s.voters[v].proxy == proxy)
  }

  lemma CastEnds(s: State, v: Name, proxy: Option<Name>, weight: real, voting: bool)
    requires Graph(s) && v in s.voters && MayUse(s, v, proxy, voting)
    ensures var r := CastProxy(s, v, proxy, weight, voting);
            && r != Err(Endless) && (!voting ==> r != Err(Rejected))
            && (Registered(s) ==> r != Err(Broken))
            && (r.Ok? ==> SameBallots(s, r.value, {v}))
            && (r.Ok? && proxy.Some? ==>
                  && proxy.value in s.voters
                  && (s.voters[proxy.value].proxy.None? || s.voters[v].proxy == proxy))
  {
    hide Propagate, SameBallots, Registered;
    SameBallotsSelf(s, {v});
    if proxy.Some? {
      var p := proxy.value;
      if !voting {
        var rank :| Ranked(s.voters, rank);
      }
      if p in s.voters && (!voting || s.voters[p].isProxy) {
        assert BallotFormed(p, s.voters[p]);
        RankLowest(s.voters, v, p);
        var rank :| Ranked(s.voters, rank) && rank[p] < rank[v];
        EndsFromCarrying(s, p, weight, v, rank);
      }
    }
  }

  /** Both stages together, for a voter that may use the proxy. */
  ghost predicate Moved(s: State, v: Name, proxy: Option<Name>, voting: bool, r: Result<State>)
    requires v in s.voters
  {
    && r != Err(Endless) && (!voting ==> r != Err(Rejected))
    && (Registered(s) ==> r != Err(Broken))
    && (r.Ok? ==> SameBallots(s, r.value, {v}))
    && (r.Ok? && proxy.Some? ==>
          && proxy.value in s.voters
          && (s.voters[proxy.value].proxy.None? || s.voters[v].proxy == proxy))
  }

  lemma MoveProxiedEnds(s: State, v: Name, proxy: Option<Name>, weight: real, voting: bool)
    requires Graph(s) && v in s.voters && MayUse(s, v, proxy, voting)
    ensures Moved(s, v, proxy, voting, MoveProxied(s, v, proxy, weight, voting))
  {
    hide Propagate, SameBallots, Registered, Undo, CastProxy;
    GraphRank(s);
    var rank :| Ranked(s.voters, rank);
    UndoEnds(s, v, rank);
    var u := Undo(s, v, s.voters[v]);
    if u.Ok? {
      SameBallotsKeepGraph(s, u.value, {v});
      SameRow(s, u.value, v);
      SameProxies(s, u.value, {v});
      CastEnds(u.value, v, proxy, weight, voting);
      var c := CastProxy(u.value, v, proxy, weight, voting);
      if c.Ok? {
        SameBallotsChain(s, u.value, c.value, {v});
      }
    }
  }

  lemma UpdateVotesKeepsGraph(s: State, v: Name, proxy: Option<Name>, producers: seq<Name>, voting: bool)
    requires Graph(s)
    requires !voting ==> v in s.voters && proxy == s.voters[v].proxy && producers == s.voters[v].producers
    ensures var r := UpdateVotes(s, v, proxy, producers, voting);
            && r != Err(Endless) && (!voting ==> r != Err(Rejected))
            && (Registered(s) ==> r != Err(Broken))
            && (r.Ok? ==> Graph(r.value))
  {
    hide MoveVotes, Recast, SameBallots, Registered, VoteWeight, Acyclic, MoveProxied, Activate;
    assert !voting ==> BallotFormed(v, s.voters[v]);
    if ValidBallot(v, proxy, producers) && v in s.voters && (proxy.None? || !s.voters[v].isProxy) {
      var r := s.voters[v];
      var weight := VoteWeight(s, r);
      var s0 := Activate(s, r);
      ActivateKeeps(s, r);
      MoveProxiedEnds(s0, v, proxy, weight, voting);
      var c := MoveProxied(s0, v, proxy, weight, voting);
      if c.Ok? {
        SameBallotsKeepGraph(s0, c.value, {v});
        SameRow(s0, c.value, v);
        SameProxies(s0, c.value, {v});
        RecastEnds(c.value, v, weight, proxy, producers, voting);
        FinalGraph(c.value, v, r.(weight := weight, producers := producers, proxy := proxy));
      }
    }
  }

  lemma GraphRank(s: State)
    requires Graph(s)
    ensures exists rank :: Ranked(s.voters, rank)
  {
  }

  lemma SameRow(s: State, t: State, v: Name)
    requires SameBallots(s, t, {v}) && v in s.voters
    ensures v in t.voters && t.voters[v] == s.voters[v] && t.voters.Keys == s.voters.Keys
  {
  }

  lemma SameProxies(s: State, t: State, fixed: set<Name>)
    requires SameBallots(s, t, fixed)
    ensures forall u :: u in s.voters ==> u in t.voters && t.voters[u].proxy == s.voters[u].proxy
  {
  }

  lemma RecastEnds(s: State, v: Name, weight: real, proxy: Option<Name>, producers: seq<Name>, voting: bool)
    requires v in s.voters && (!voting ==> producers == s.voters[v].producers)
    ensures var r := MoveVotes(s, Recast(s.voters[v], weight, proxy, producers), Cast(voting));
            && r != Err(Endless) && (!voting ==> r != Err(Rejected))
            && (Registered(s) ==> r != Err(Broken))
            && (r.Ok? ==> OnlyVotesMove(s, r.value))
  {
    var r := s.voters[v];
    var ds := Recast(r, weight, proxy, producers);
    MoveVotesEnds(s, ds, Cast(voting));
    if Registered(s) {
      BallotDeltasMove(if r.weight > 0.0 && r.proxy.None? then r.producers else [], r.weight,
                       if weight >= 0.0 && proxy.None? then producers else [], weight);
      ShiftAllSucceeds(s, ds, Cast(voting));
    }
  }

  lemma MoveVotesEnds(s: State, ds: seq<Delta>, cause: Cause)
    ensures var r := MoveVotes(s, ds, cause);
            && r != Err(Endless) && (cause != Cast(true) ==> r != Err(Rejected))
            && (r.Ok? ==> OnlyVotesMove(s, r.value))
  {
    ShiftAllFails(s, ds, cause);
    ShiftAllFrame(s, ds, cause);
  }

  /** The voter's new ballot, put in place. */
  lemma FinalGraph(s: State, v: Name, row: Voter)
    requires Graph(s) && v in s.voters && BallotFormed(v, row)
    requires row.proxy.Some? ==>
      && row.proxy.value in s.voters
      && (s.voters[row.proxy.value].proxy.None? || s.voters[v].proxy == row.proxy)
    ensures Formed(s.(voters := s.voters[v := row])) && Acyclic(s.voters[v := row])
  {
    ReballotKeepsAcyclic(s.voters, v, row);
  }

  // ---------------------------------------------------------------------------------------------
  // The tallies.

  /** While a vote is changing, the voter's ballot is pending; one that no proxy carries may be swapped. */
  lemma SwapPending(s: State, v: Name, row0: Voter, row1: Voter)
    requires Tallies(s, map[v := row0])
    requires forall x :: Through(x)(v, row0) == Through(x)(v, row1)
    ensures Tallies(s, map[v := row1])
  {
    hide Sums.Sum, InAgreement;
    assert s.voters + map[v := row0] == s.voters[v := row0];
    assert s.voters + map[v := row1] == s.voters[v := row0][v := row1];
    PutCast(s.voters[v := row0], v, row1);
  }

  lemma StartPending(s: State, v: Name)
    requires Tallies(s, map[]) && v in s.voters
    ensures Tallies(s, map[v := s.voters[v]])
  {
    hide Sums.Sum, InAgreement;
    assert s.voters + map[v := s.voters[v]] == s.voters + map[];
  }

  /** A ballot without weight, cast anew through a proxy. */
  lemma CastUp(s: State, v: Name, p: Name, row0: Voter, row1: Voter)
    requires Tallies(s, map[v := row0]) && p in s.voters && p != v
    requires row0.weight == 0.0 && row1.weight >= 0.0 && row1.proxy == Some(p)
    ensures Tallies(AddProxied(s, p, row1.weight), map[v := row1])
  {
    hide Sums.Sum, InAgreement;
    var t := AddProxied(s, p, row1.weight);
    AgreementIgnoresVoters(s, t);
    SameCast(s.voters, p, t.voters[p]);
    CastUpProxies(s.voters, v, p, row0, row1);
  }

  lemma CastUpProxies(voters: Voters, v: Name, p: Name, row0: Voter, row1: Voter)
    requires ProxiesExact(voters, voters + map[v := row0]) && v in voters && p in voters && p != v
    requires row0.weight == 0.0 && row1.weight >= 0.0 && row1.proxy == Some(p)
    ensures var carrying := voters[p].(proxied := voters[p].proxied + row1.weight);
            ProxiesExact(voters[p := carrying], voters[p := carrying] + map[v := row1])
  {
    hide Sums.Sum;
    var carrying := voters[p].(proxied := voters[p].proxied + row1.weight);
    assert voters + map[v := row0] == voters[v := row0];
    assert voters[p := carrying] + map[v := row1] == voters[v := row0][p := carrying][v := row1];
    SameCast(voters[v := row0], p, carrying);
    PutCast(voters[v := row0][p := carrying], v, row1);
  }

  lemma UndoExact(s: State, v: Name, rank: map<Name, nat>)
    requires Formed(s) && Ranked(s.voters, rank) && v in s.voters && Tallies(s, map[])
    ensures Exactly(Undo(s, v, s.voters[v]), map[v := s.voters[v].(weight := 0.0)])
  {
    hide Tallies, Propagate, Formed;
    var r := s.voters[v];
    if r.weight > 0.0 && r.proxy.Some? {
      var p := r.proxy.value;
      StepUpChain(s, v, map[], p, 0.0, -r.weight);
      assert map[][v := r.(weight := 0.0)] == map[v := r.(weight := 0.0)];
      CarryingKeepsGraph(s, p, -r.weight);
      PropagateExact(AddProxied(s, p, -r.weight), p, {v}, rank, map[v := r.(weight := 0.0)]);
    } else {
      StartPending(s, v);
      SwapPending(s, v, r, r.(weight := 0.0));
    }
  }

  lemma CastExact(s: State, v: Name, row0: Voter, row1: Voter, voting: bool)
    requires Graph(s) && v in s.voters && MayUse(s, v, row1.proxy, voting)
    requires Tallies(s, map[v := row0]) && row0.weight == 0.0
    requires CastProxy(s, v, row1.proxy, row1.weight, voting).Ok?
    ensures Exactly(CastProxy(s, v, row1.proxy, row1.weight, voting), map[v := row1])
  {
    hide Tallies, Propagate, SameBallots, Graph;
    if row1.proxy.None? || row1.weight < 0.0 {
      SwapPending(s, v, row0, row1);
    } else {
      CastEnds(s, v, row1.proxy, row1.weight, voting);
      CarriedExact(s, v, row1.proxy.value, row0, row1);
    }
  }

  lemma CarriedExact(s: State, v: Name, p: Name, row0: Voter, row1: Voter)
    requires Graph(s) && v in s.voters && p in s.voters && p != v
    requires s.voters[p].proxy.None? || s.voters[v].proxy == Some(p)
    requires Tallies(s, map[v := row0]) && row0.weight == 0.0 && row1.weight >= 0.0 && row1.proxy == Some(p)
    ensures Exactly(Propagate(AddProxied(s, p, row1.weight), p, {v}), map[v := row1])
  {
    hide Tallies, Propagate, SameBallots, Formed;
    RankLowest(s.voters, v, p);
    var rank :| Ranked(s.voters, rank) && rank[p] < rank[v];
    CastUp(s, v, p, row0, row1);
    CarryingKeepsGraph(s, p, row1.weight);
    PropagateExact(AddProxied(s, p, row1.weight), p, {v}, rank, map[v := row1]);
  }

  /** The last stage: producers get the difference, and the ballot is no longer pending. */
  lemma FinalExact(s: State, t: State, v: Name, row: Voter, voting: bool)
    requires v in s.voters && Tallies(s, map[v := row])
    requires row == s.voters[v].(weight := row.weight, producers := row.producers, proxy := row.proxy)
    requires row.proxy.Some? ==> row.producers == []
    requires MoveVotes(s, Recast(s.voters[v], row.weight, row.proxy, row.producers), Cast(voting)) == Ok(t)
    ensures OnlyVotesMove(s, t)
    ensures Tallies(t.(voters := s.voters[v := row]), map[])
  {
    hide Sums.Sum, InAgreement, MoveVotes, BallotDeltas, MovedTo, ProxiesExact;
    var r := s.voters[v];
    var before := if r.weight > 0.0 && r.proxy.None? then r.producers else [];
    var after := if row.weight >= 0.0 && row.proxy.None? then row.producers else [];
    BallotDeltasMove(before, r.weight, after, row.weight);
    assert map[v := row][v] == row;
    MovedBacking(s, t, v, row, Recast(r, row.weight, row.proxy, row.producers), Cast(voting));
    AgreementIgnoresVoters(t, t.(voters := s.voters[v := row]));
    FinalRegistered(s, t, v, row, voting);
    NoLongerPending(s.voters, v, row);
  }

  lemma NoLongerPending(voters: Voters, v: Name, row: Voter)
    requires ProxiesExact(voters, voters + map[v := row]) && v in voters && row.proxied == voters[v].proxied
    ensures ProxiesExact(voters[v := row], voters[v := row] + map[])
  {
    assert voters + map[v := row] == voters[v := row] == voters[v := row] + map[];
  }

  lemma FinalRegistered(s: State, t: State, v: Name, row: Voter, voting: bool)
    requires v in s.voters && (row.proxy.Some? ==> row.producers == [])
    requires MoveVotes(s, Recast(s.voters[v], row.weight, row.proxy, row.producers), Cast(voting)) == Ok(t)
    ensures row.weight >= 0.0 ==> forall p :: p in row.producers ==> p in t.producers
    ensures CastRegistered(s) ==> CastRegistered(t.(voters := s.voters[v := row]))
  {
    var r := s.voters[v];
    var ds := Recast(r, row.weight, row.proxy, row.producers);
    ShiftAllChecksNew(s, ds, voting);
    ShiftAllFrame(s, ds, Cast(voting));
    forall p | p in row.producers && row.weight >= 0.0
      ensures p in t.producers
    {
      BallotDeltasName(if r.weight > 0.0 && r.proxy.None? then r.producers else [], r.weight,
                       row.producers, row.weight, p);
    }
  }

  lemma MoveProxiedExact(s: State, v: Name, row: Voter, voting: bool)
    requires Graph(s) && v in s.voters && MayUse(s, v, row.proxy, voting)
    requires Tallies(s, map[])
    requires MoveProxied(s, v, row.proxy, row.weight, voting).Ok?
    ensures Exactly(MoveProxied(s, v, row.proxy, row.weight, voting), map[v := row])
  {
    hide Propagate, SameBallots, Registered, Tallies, Undo, CastProxy;
    GraphRank(s);
    var rank :| Ranked(s.voters, rank);
    UndoEnds(s, v, rank);
    UndoExact(s, v, rank);
    var u := Undo(s, v, s.voters[v]).value;
    SameBallotsKeepGraph(s, u, {v});
    SameRow(s, u, v);
    CastEnds(u, v, row.proxy, row.weight, voting);
    var c := CastProxy(u, v, row.proxy, row.weight, voting).value;
    StillInexact(u, c, {v});
    if !c.inexact {
      CastExact(u, v, s.voters[v].(weight := 0.0), row, voting);
    }
  }

  /**
   A vote keeps the tables exact, whatever weight it has, unless a weight stored while passing it on
   was distorted.
   */
  lemma UpdateVotesKeepsExact(s: State, v: Name, proxy: Option<Name>, producers: seq<Name>, voting: bool)
    requires Graph(s) && Exact(s)
    requires !voting ==> v in s.voters && proxy == s.voters[v].proxy && producers == s.voters[v].producers
    ensures var r := UpdateVotes(s, v, proxy, producers, voting);
            && (r.Ok? && !r.value.inexact ==> Exact(r.value))
            && (r.Ok? && s.inexact ==> r.value.inexact)
  {
    hide MoveVotes, Recast, SameBallots, Tallies, VoteWeight, MoveProxied, Activate;
    assert !voting ==> BallotFormed(v, s.voters[v]);
    if UpdateVotes(s, v, proxy, producers, voting).Ok? {
      var r := s.voters[v];
      var s0 := Activate(s, r);
      ActivateKeeps(s, r);
      var row := r.(weight := VoteWeight(s, r), producers := producers, proxy := proxy);
      MoveProxiedEnds(s0, v, proxy, row.weight, voting);
      var c := MoveProxied(s0, v, proxy, row.weight, voting).value;
      StillInexact(s0, c, {v});
      SameBallotsKeepGraph(s0, c, {v});
      SameRow(s0, c, v);
      var m := MoveVotes(c, Recast(r, row.weight, proxy, producers), Cast(voting)).value;
      MoveVotesEnds(c, Recast(r, row.weight, proxy, producers), Cast(voting));
      if !c.inexact {
        MoveProxiedExact(s0, v, row, voting);
        FinalExact(c, m, v, row, voting);
      }
    }
  }

  lemma ActivateKeeps(s: State, r: Voter)
    ensures Activate(s, r) == s.(activatedStake := Activate(s, r).activatedStake, threshTime := Activate(s, r).threshTime)
    ensures Tallies(s, map[]) ==> Tallies(Activate(s, r), map[])
    ensures Registered(s) ==> Registered(Activate(s, r))
  {
  }

  lemma StillInexact(s: State, t: State, fixed: set<Name>)
    requires SameBallots(s, t, fixed)
    ensures s.inexact ==> t.inexact
  {
  }
}
