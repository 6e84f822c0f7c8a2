/**
 Exactly when a voting action fails on a check meant for corrupted data: when a weight change passed
 on, or a vote refreshed, meets a stored ballot that names a producer which is not registered.
 */
module VoteBlocks {
  import opened Basics
  import opened Voting
  import opened VotePay
  import opened ProxyGraph
  import opened VoteTallies
  import opened VoteBallots
  import opened VoteActions
  import opened VoteWeights
  import Sums = RealSums

  // ---------------------------------------------------------------------------------------------
  // Passing on.

  predicate Passes(delta: real) {
    delta < -1.0 || 1.0 < delta
  }

  /** The change of a proxy's own weight when it carries `delta` more. */
  function NextChange(s: State, p: Name, delta: real): real
    requires p in s.voters
  {
    var r := s.voters[p];
    VoteWeight(s, r.(proxied := r.proxied + delta)) - r.weight
  }

  /**
   Whether a change of the weight of `v`, followed from proxy to proxy, arrives at a ballot that names an
   unregistered producer.
   */
  predicate Blocked(s: State, v: Name, delta: real, seen: set<Name>)
    decreases s.voters.Keys - seen
  {
    && v in s.voters && v !in seen && Passes(delta)
    && match s.voters[v].proxy
       case None => !AllRegistered(s.producers, s.voters[v].producers)
       case Some(p) => p in s.voters && Blocked(s, p, NextChange(s, p, delta), seen + {v})
  }

  /** Whether a change of the weight of `v`, followed the same way, arrives at account `q`. */
  predicate Meets(s: State, v: Name, delta: real, seen: set<Name>, q: Name)
    decreases s.voters.Keys - seen
  {
    && v in s.voters && v !in seen
    && (v == q
        || (Passes(delta) && s.voters[v].proxy.Some? && s.voters[v].proxy.value in s.voters
            && Meets(s, s.voters[v].proxy.value, NextChange(s, s.voters[v].proxy.value, delta), seen + {v}, q)))
  }

  /** The ballots are the same, and below account `v` so is everything else about an account. */
  ghost predicate SameBelow(s: State, t: State, v: Name, rank: map<Name, nat>)
    requires Ranked(s.voters, rank) && v in s.voters
  {
    && t.voters.Keys == s.voters.Keys && t.producers.Keys == s.producers.Keys && t.factor == s.factor
    && (forall u :: u in s.voters ==> t.voters[u].proxy == s.voters[u].proxy && t.voters[u].producers == s.voters[u].producers)
    && (forall u :: u in s.voters && rank[u] < rank[v] ==> t.voters[u] == s.voters[u])
  }

  lemma {:induction false} BlockedBelow(s: State, t: State, v: Name, delta: real, seen: set<Name>, rank: map<Name, nat>)
    requires Ranked(s.voters, rank) && v in s.voters && SameBelow(s, t, v, rank)
    ensures Blocked(t, v, delta, seen) == Blocked(s, v, delta, seen)
    ensures forall q :: Meets(t, v, delta, seen, q) == Meets(s, v, delta, seen, q)
    decreases s.voters.Keys - seen
  {
    if v !in seen && s.voters[v].proxy.Some? {
      var p := s.voters[v].proxy.value;
      BlockedBelow(s, t, p, NextChange(s, p, delta), seen + {v}, rank);
    }
  }

  lemma NextRanks(voters: Voters, v: Name, p: Name, seen: set<Name>, rank: map<Name, nat>)
    requires Ranked(voters, rank) && v in voters && voters[v].proxy == Some(p)
    requires forall u :: u in seen ==> u in rank && rank[v] < rank[u]
    ensures p in voters && forall u :: u in seen + {v} ==> u in rank && rank[p] < rank[u]
  {
  }

  /** The contract's recursion fails there and nowhere else. */
  lemma {:induction false} PassOnBrokenIff(s: State, v: Name, delta: real, seen: set<Name>, rank: map<Name, nat>)
    requires Formed(s) && Ranked(s.voters, rank) && v in s.voters && v !in seen
    requires forall u :: u in seen ==> u in rank && rank[v] < rank[u]
    ensures PassOn(s, v, delta, seen) == Err(Broken) <==> Blocked(s, v, delta, seen)
    decreases s.voters.Keys - seen, 0
  {
    hide PassToProducers, Propagate, SameBallots, BallotFormed, Formed, Ranked, VoteWeight;
    var r := s.voters[v];
    if Passes(delta) {
      if r.proxy.None? {
        PassToProducersFails(s, r.producers, delta, {});
        if PassToProducers(s, r.producers, delta).Ok? {
          EachRegistered(s, r.producers, delta);
        }
      } else {
        NextRanks(s.voters, v, r.proxy.value, seen, rank);
        CarryBrokenIff(s, r.proxy.value, delta, seen + {v}, rank);
      }
    }
  }

  lemma {:induction false} CarryBrokenIff(s: State, p: Name, delta: real, seen: set<Name>, rank: map<Name, nat>)
    requires Formed(s) && Ranked(s.voters, rank) && p in s.voters
    requires forall u :: u in seen ==> u in rank && rank[p] < rank[u]
    ensures Propagate(AddProxied(s, p, delta), p, seen) == Err(Broken) <==> Blocked(s, p, NextChange(s, p, delta), seen)
    decreases s.voters.Keys - seen, 2
  {
    hide Propagate, SameBallots, Formed, Blocked, Meets;
    var s1 := AddProxied(s, p, delta);
    CarryingKeepsGraph(s, p, delta);
    PropagateBrokenIff(s1, p, seen, rank);
    BlockedBelow(s, s1, p, NextChange(s, p, delta), seen, rank);
  }

  lemma {:induction false} PropagateBrokenIff(s: State, v: Name, seen: set<Name>, rank: map<Name, nat>)
    requires Formed(s) && Ranked(s.voters, rank) && v in s.voters
    requires forall u :: u in seen ==> u in rank && rank[v] < rank[u]
    ensures Propagate(s, v, seen) == Err(Broken) <==> Blocked(s, v, VoteWeight(s, s.voters[v]) - s.voters[v].weight, seen)
    decreases s.voters.Keys - seen, 1
  {
    hide PassOn, VoteWeight;
    assert BallotFormed(v, s.voters[v]);
    PassOnBrokenIff(s, v, VoteWeight(s, s.voters[v]) - s.voters[v].weight, seen, rank);
  }

  /** Accounts a change arrives at store the weight they would cast now; no other account changes. */
  ghost predicate Settled(s: State, t: State, q: Name, met: bool) {
    q in s.voters && q in t.voters
    && (if met then t.voters[q].weight == VoteWeight(t, t.voters[q]) else t.voters[q] == s.voters[q])
  }

  lemma {:induction false} PropagateSettles(s: State, v: Name, seen: set<Name>, rank: map<Name, nat>, q: Name)
    requires Formed(s) && Ranked(s.voters, rank) && v in s.voters && q in s.voters
    requires forall u :: u in seen ==> u in rank && rank[v] < rank[u]
    ensures var r := Propagate(s, v, seen);
            r.Ok? ==>
              && r.value.factor == s.factor
              && Settled(s, r.value, q, Meets(s, v, VoteWeight(s, s.voters[v]) - s.voters[v].weight, seen, q))
    decreases s.voters.Keys - seen, 1
  {
    hide PassOn, BallotFormed, Meets;
    var delta := VoteWeight(s, s.voters[v]) - s.voters[v].weight;
    PassOnSettles(s, v, delta, seen, rank, q);
    MeetsItself(s, v, delta, seen);
  }

  lemma MeetsItself(s: State, v: Name, delta: real, seen: set<Name>)
    requires v in s.voters && v !in seen
    ensures Meets(s, v, delta, seen, v)
  {
  }

  lemma {:induction false} PassOnSettles(s: State, v: Name, delta: real, seen: set<Name>, rank: map<Name, nat>, q: Name)
    requires Formed(s) && Ranked(s.voters, rank) && v in s.voters && q in s.voters && v !in seen
    requires forall u :: u in seen ==> u in rank && rank[v] < rank[u]
    ensures var r := PassOn(s, v, delta, seen);
            r.Ok? ==>
              && r.value.factor == s.factor && v in r.value.voters && r.value.voters[v] == s.voters[v]
              && (q != v ==> Settled(s, r.value, q, Meets(s, v, delta, seen, q)))
    decreases s.voters.Keys - seen, 0
  {
    hide PassToProducers, Propagate, SameBallots, BallotFormed, Formed, Ranked, VoteWeight;
    var r := s.voters[v];
    if PassOn(s, v, delta, seen).Ok? && Passes(delta) {
      if r.proxy.None? {
        PassToProducersFails(s, r.producers, delta, {});
        SameFactor(s, PassToProducers(s, r.producers, delta).value, {});
      } else {
        ChainSettles(s, v, r.proxy.value, delta, seen, rank, q);
      }
    }
  }

  lemma {:induction false} ChainSettles(
    s: State, v: Name, p: Name, delta: real, seen: set<Name>, rank: map<Name, nat>, q: Name)
    requires Formed(s) && Ranked(s.voters, rank) && v in s.voters && q in s.voters && v !in seen
    requires s.voters[v].proxy == Some(p) && p in s.voters
    requires forall u :: u in seen ==> u in rank && rank[v] < rank[u]
    ensures var r := Propagate(AddProxied(s, p, delta), p, seen + {v});
            r.Ok? ==>
              && r.value.factor == s.factor && v in r.value.voters && r.value.voters[v] == s.voters[v]
              && Settled(s, r.value, q, Meets(s, p, NextChange(s, p, delta), seen + {v}, q))
    decreases s.voters.Keys - (seen + {v}), 2
  {
    hide Propagate, SameBallots, Formed, Blocked, Meets;
    var s1 := AddProxied(s, p, delta);
    CarryingKeepsGraph(s, p, delta);
    PropagateSettles(s1, p, seen + {v}, rank, q);
    PropagateSpares(s1, p, seen + {v}, rank, v);
    BlockedBelow(s, s1, p, NextChange(s, p, delta), seen + {v}, rank);
    assert q == p ==> Meets(s, p, NextChange(s, p, delta), seen + {v}, q) by {
      MeetsItself(s, p, NextChange(s, p, delta), seen + {v});
    }
  }

  lemma SameFactor(s: State, t: State, fixed: set<Name>)
    requires SameBallots(s, t, fixed)
    ensures t.factor == s.factor
  {
  }

  /** A change only arrives at accounts further down the chain. */
  lemma {:induction false} MeetsBelow(s: State, v: Name, delta: real, seen: set<Name>, rank: map<Name, nat>, q: Name)
    requires Ranked(s.voters, rank) && v in s.voters
    ensures Meets(s, v, delta, seen, q) && q != v ==> q in s.voters && rank[q] < rank[v]
    decreases s.voters.Keys - seen
  {
    if Meets(s, v, delta, seen, q) && q != v {
      var p := s.voters[v].proxy.value;
      MeetsBelow(s, p, NextChange(s, p, delta), seen + {v}, rank, q);
    }
  }

  /**
   Passing on the weight of an account that uses proxy `p`: `p` carries what was passed on, and none but `v`
   casts otherwise through `p`.
   */
  lemma ProxyCarries(s: State, v: Name, p: Name, rank: map<Name, nat>)
    requires Formed(s) && Ranked(s.voters, rank) && v in s.voters && s.voters[v].proxy == Some(p)
    requires Propagate(s, v, {}).Ok?
    ensures var t := Propagate(s, v, {}).value;
            var weight := VoteWeight(s, s.voters[v]);
            && t.voters.Keys == s.voters.Keys && p in s.voters && p != v
            && t.voters[v] == s.voters[v].(weight := weight)
            && t.voters[p].proxied == s.voters[p].proxied + PassedChange(weight - s.voters[v].weight)
            && forall u :: u in s.voters && u != v && s.voters[u].proxy == Some(p) ==> t.voters[u] == s.voters[u]
  {
    hide Propagate, PassToProducers, BallotFormed, Formed, VoteWeight, Meets, SameBallots;
    var delta := VoteWeight(s, s.voters[v]) - s.voters[v].weight;
    PropagateEnds(s, v, {}, rank);
    PropagateStores(s, v, {});
    forall u | u in s.voters && u != v && s.voters[u].proxy == Some(p)
      ensures Propagate(s, v, {}).value.voters[u] == s.voters[u]
    {
      PropagateSettles(s, v, {}, rank, u);
      assert !Meets(s, v, delta, {}, u) by {
        NotMet(s, v, p, delta, rank, u);
      }
    }
    if Passes(delta) {
      CarriedThrough(s, v, p, delta, rank);
    }
  }

  lemma NotMet(s: State, v: Name, p: Name, delta: real, rank: map<Name, nat>, u: Name)
    requires Ranked(s.voters, rank) && v in s.voters && u in s.voters && u != v
    requires s.voters[v].proxy == Some(p) && s.voters[u].proxy == Some(p)
    ensures !Meets(s, v, delta, {}, u)
  {
    hide Meets;
    MeetsNext(s, v, p, delta, u);
    MeetsBelow(s, p, NextChange(s, p, delta), {v}, rank, u);
  }

  lemma MeetsNext(s: State, v: Name, p: Name, delta: real, u: Name)
    requires v in s.voters && u != v && s.voters[v].proxy == Some(p)
    ensures Meets(s, v, delta, {}, u) ==> p in s.voters && Meets(s, p, NextChange(s, p, delta), {v}, u)
  {
    assert {} + {v} == {v};
  }

  /** What passing on stores for the account itself. */
  lemma PropagateStores(s: State, v: Name, seen: set<Name>)
    requires v in s.voters && Propagate(s, v, seen).Ok?
    ensures var weight := VoteWeight(s, s.voters[v]);
            && v !in seen
            && PassOn(s, v, weight - s.voters[v].weight, seen).Ok?
            && Propagate(s, v, seen) == Ok(SetWeight(PassOn(s, v, weight - s.voters[v].weight, seen).value, v, weight))
  {
    hide PassOn, SetWeight, VoteWeight;
  }

  lemma CarriedThrough(s: State, v: Name, p: Name, delta: real, rank: map<Name, nat>)
    requires Formed(s) && Ranked(s.voters, rank) && v in s.voters && s.voters[v].proxy == Some(p)
    requires Passes(delta) && PassOn(s, v, delta, {}).Ok?
    ensures p in s.voters
    ensures var t := PassOn(s, v, delta, {}).value;
            && t.voters.Keys == s.voters.Keys
            && t.voters[p].proxied == s.voters[p].proxied + delta && t.voters[v] == s.voters[v]
  {
    hide Propagate, PassOn, Formed, SameBallots, Ranked, VoteWeight, Meets, Distorted;
    NextRanks(s.voters, v, p, {}, rank);
    assert {} + {v} == {v};
    PassOnThrough(s, v, p, delta);
    var s1 := AddProxied(s, p, delta);
    CarryingKeepsGraph(s, p, delta);
    PropagateStores(s1, p, {v});
    PassOnSettles(s1, p, VoteWeight(s1, s1.voters[p]) - s1.voters[p].weight, {v}, rank, p);
    PropagateSpares(s1, p, {v}, rank, v);
  }

  lemma PassOnThrough(s: State, v: Name, p: Name, delta: real)
    requires v in s.voters && s.voters[v].proxy == Some(p) && p in s.voters && Passes(delta)
    ensures PassOn(s, v, delta, {}) == Propagate(AddProxied(s, p, delta), p, {v})
  {
    hide Propagate;
    assert {} + {v} == {v};
  }

  /**
   Passing on the weight of an account that uses a proxy which carries what is cast through it leaves that
   so exactly if the stored weight is not distorted.
   */
  lemma ThroughExactIff(s: State, v: Name, p: Name)
    requires Graph(s) && v in s.voters && s.voters[v].proxy == Some(p) && p in s.voters
    requires s.voters[p].proxied == Sums.Sum(s.voters, Through(p))
    requires Propagate(s, v, {}).Ok?
    ensures var t := Propagate(s, v, {}).value;
            p in t.voters
            && (t.voters[p].proxied == Sums.Sum(t.voters, Through(p)) <==> !Distorted(s.voters[v], VoteWeight(s, s.voters[v])))
  {
    hide Sums.Sum, Propagate, Formed, VoteWeight, SameBallots;
    GraphRank(s);
    var rank :| Ranked(s.voters, rank);
    ProxyCarries(s, v, p, rank);
    PropagateEnds(s, v, {}, rank);
    var t := Propagate(s, v, {}).value;
    SameKeys(s, t, {});
    var row := t.voters[v];
    PutCast(s.voters, v, row);
    Sums.SumAlike(s.voters[v := row], Through(p), t.voters, Through(p));
  }

  // ---------------------------------------------------------------------------------------------
  // One vote.

  /** Whether taking an account's last weight back from its proxy arrives at such a ballot. */
  predicate UndoBlocked(s: State, v: Name)
    requires v in s.voters
  {
    var r := s.voters[v];
    && r.weight > 0.0 && r.proxy.Some? && r.proxy.value in s.voters
    && Blocked(s, r.proxy.value, NextChange(s, r.proxy.value, -r.weight), {v})
  }

  predicate UndoMeets(s: State, v: Name, p: Name)
    requires v in s.voters
  {
    var r := s.voters[v];
    && r.weight > 0.0 && r.proxy.Some? && r.proxy.value in s.voters
    && Meets(s, r.proxy.value, NextChange(s, r.proxy.value, -r.weight), {v}, p)
  }

  /**
   Whether casting a weight through proxy `p` then does. If taking back the last weight arrived at `p`, its
   weight is up to date, and changes by just what it carries more.
   */
  predicate CastBlocked(s: State, v: Name, p: Name, weight: real)
    requires v in s.voters
  {
    && p in s.voters && weight >= 0.0
    && var change := if UndoMeets(s, v, p) then (if s.voters[p].isProxy then weight else 0.0) else NextChange(s, p, weight);
       Blocked(s, p, change, {v})
  }

  /** Whether a vote of an account does, or else is a refreshed one that names unregistered producers itself. */
  predicate VoteBlocked(s: State, v: Name, proxy: Option<Name>, producers: seq<Name>, weight: real, voting: bool)
    requires v in s.voters
  {
    || UndoBlocked(s, v)
    || match proxy
       case Some(p) => (voting ==> p in s.voters && s.voters[p].isProxy) && CastBlocked(s, v, p, weight)
       case None => !voting && weight >= 0.0 && !AllRegistered(s.producers, producers)
  }

  lemma UndoBrokenIff(s: State, v: Name, rank: map<Name, nat>)
    requires Formed(s) && Ranked(s.voters, rank) && v in s.voters
    ensures Undo(s, v, s.voters[v]) == Err(Broken) <==> UndoBlocked(s, v)
  {
    hide Propagate, Formed, Blocked;
    var r := s.voters[v];
    if r.weight > 0.0 && r.proxy.Some? {
      NextRanks(s.voters, v, r.proxy.value, {}, rank);
      assert {} + {v} == {v};
      CarryBrokenIff(s, r.proxy.value, -r.weight, {v}, rank);
    }
  }

  lemma UndoSettles(s: State, v: Name, rank: map<Name, nat>, p: Name)
    requires Formed(s) && Ranked(s.voters, rank) && v in s.voters && p in s.voters && Undo(s, v, s.voters[v]).Ok?
    ensures var u := Undo(s, v, s.voters[v]).value;
            u.factor == s.factor && Settled(s, u, p, UndoMeets(s, v, p))
    ensures s.voters[v].weight > 0.0 && s.voters[v].proxy == Some(p) ==> UndoMeets(s, v, p)
  {
    hide Propagate, Formed, Meets;
    var r := s.voters[v];
    if r.weight > 0.0 && r.proxy.Some? {
      ChainSettles(s, v, r.proxy.value, -r.weight, {}, rank, p);
      assert {} + {v} == {v};
      MeetsItself(s, r.proxy.value, NextChange(s, r.proxy.value, -r.weight), {v});
    }
  }

  /** Casting fails exactly if it meets such a ballot as the tables are after the last weight was taken back. */
  lemma CarriedBrokenIff(s: State, v: Name, p: Name, weight: real)
    requires Graph(s) && v in s.voters && p in s.voters && p != v
    requires s.voters[p].proxy.None? || s.voters[v].proxy == Some(p)
    ensures Propagate(AddProxied(s, p, weight), p, {v}) == Err(Broken) <==> Blocked(s, p, NextChange(s, p, weight), {v})
  {
    hide Propagate, Formed, Blocked, NextChange, AddProxied;
    RankLowest(s.voters, v, p);
    var rank :| Ranked(s.voters, rank) && rank[p] < rank[v];
    CarryBrokenIff(s, p, weight, {v}, rank);
  }

  /** An account without a proxy of its own passes on to the producers on its ballot. */
  lemma BlockedDirect(s: State, p: Name, delta: real, v: Name)
    requires p in s.voters && p != v && s.voters[p].proxy.None?
    ensures Blocked(s, p, delta, {v}) <==> Passes(delta) && !AllRegistered(s.producers, s.voters[p].producers)
  {
  }

  lemma CastBrokenIff(s: State, u: State, v: Name, p: Name, weight: real, voting: bool)
    requires Graph(s) && v in s.voters && MayUse(s, v, Some(p), voting)
    requires Undo(s, v, s.voters[v]) == Ok(u)
    ensures CastProxy(u, v, Some(p), weight, voting) == Err(Broken)
            <==> (voting ==> p in s.voters && s.voters[p].isProxy) && CastBlocked(s, v, p, weight)
  {
    hide Propagate, Blocked, Meets, SameBallots, Acyclic, Registered, UndoMeets, Stake2Vote;
    GraphRank(s);
    var rank :| Ranked(s.voters, rank);
    UndoEnds(s, v, rank);
    SameBallotsKeepGraph(s, u, {v});
    SameKeys(s, u, {v});
    if p in s.voters && (voting ==> s.voters[p].isProxy) && weight >= 0.0 {
      UndoSettles(s, v, rank, p);
      assert BallotFormed(p, s.voters[p]);
      CarriedBrokenIff(u, v, p, weight);
      if s.voters[p].proxy.None? {
        BlockedDirect(u, p, NextChange(u, p, weight), v);
        BlockedDirect(s, p, NextChange(s, p, weight), v);
        BlockedDirect(s, p, if s.voters[p].isProxy then weight else 0.0, v);
      } else if UndoMeets(s, v, p) {
        SmallNotBlocked(u, p, NextChange(u, p, weight), {v});
        SmallNotBlocked(s, p, 0.0, {v});
      }
    }
  }

  lemma SmallNotBlocked(s: State, v: Name, delta: real, seen: set<Name>)
    ensures !Passes(delta) ==> !Blocked(s, v, delta, seen)
  {
  }

  lemma SameKeys(s: State, u: State, fixed: set<Name>)
    requires SameBallots(s, u, fixed)
    ensures u.voters.Keys == s.voters.Keys && u.producers.Keys == s.producers.Keys
    ensures forall p :: p in s.voters ==>
      && u.voters[p].proxy == s.voters[p].proxy && u.voters[p].producers == s.voters[p].producers
      && u.voters[p].isProxy == s.voters[p].isProxy && u.voters[p].staked == s.voters[p].staked
  {
  }

  // ---------------------------------------------------------------------------------------------
  // The last stage, and the whole vote.

  /** A refreshed vote needs a producer only if it gives it votes. */
  lemma {:induction false} RefreshMoves(s: State, ds: seq<Delta>)
    requires forall d :: d in ds && d.isNew ==> d.producer in s.producers
    ensures ShiftAll(s, ds, Cast(false)).Ok?
    decreases |ds|
  {
    if ds != [] {
      var rest := ds[..|ds| - 1];
      RefreshMoves(s, rest);
      ShiftAllFrame(s, rest, Cast(false));
      assert ds[|ds| - 1] in ds;
    }
  }

  lemma RecastBrokenIff(s: State, v: Name, weight: real, proxy: Option<Name>, producers: seq<Name>, voting: bool)
    requires v in s.voters && (proxy.Some? ==> producers == [])
    ensures MoveVotes(s, Recast(s.voters[v], weight, proxy, producers), Cast(voting)) == Err(Broken)
            <==> !voting && proxy.None? && weight >= 0.0 && !AllRegistered(s.producers, producers)
  {
    hide ShiftAll, BallotDeltas;
    var r := s.voters[v];
    var ds := Recast(r, weight, proxy, producers);
    MoveVotesEnds(s, ds, Cast(voting));
    var before := if r.weight > 0.0 && r.proxy.None? then r.producers else [];
    var after := if weight >= 0.0 && proxy.None? then producers else [];
    BallotDeltasMove(before, r.weight, after, weight);
    if voting {
      ShiftAllSucceeds(s, ds, Cast(true));
    } else if AllRegistered(s.producers, after) {
      RefreshMoves(s, ds);
    } else if MoveVotes(s, ds, Cast(false)).Ok? {
      RecastRegisters(s, v, weight, proxy, producers);
    } else {
      OnlyBroken(MoveVotes(s, ds, Cast(false)));
    }
  }

  lemma RecastRegisters(s: State, v: Name, weight: real, proxy: Option<Name>, producers: seq<Name>)
    requires v in s.voters && (proxy.Some? ==> producers == [])
    requires MoveVotes(s, Recast(s.voters[v], weight, proxy, producers), Cast(false)).Ok?
    ensures weight >= 0.0 ==> AllRegistered(s.producers, producers)
  {
    hide ShiftAll, BallotDeltas;
    var r := s.voters[v];
    var row := r.(weight := weight, proxy := proxy, producers := producers);
    var ds := Recast(r, weight, proxy, producers);
    MoveVotesEnds(s, ds, Cast(false));
    FinalRegistered(s, MoveVotes(s, ds, Cast(false)).value, v, row, false);
  }

  lemma OnlyBroken<T>(r: Result<T>)
    requires r.Err? && r != Err(Endless) && r != Err(Rejected)
    ensures r == Err(Broken)
  {
    match r.error
    case Broken =>
    case _ =>
  }

  /** Taking an account's weight from its old proxy and casting it through the new one. */
  lemma MoveProxiedBrokenIff(s: State, v: Name, proxy: Option<Name>, weight: real, voting: bool)
    requires Graph(s) && v in s.voters && MayUse(s, v, proxy, voting)
    ensures MoveProxied(s, v, proxy, weight, voting) == Err(Broken)
            <==> UndoBlocked(s, v)
                 || (proxy.Some? && (voting ==> proxy.value in s.voters && s.voters[proxy.value].isProxy)
                     && CastBlocked(s, v, proxy.value, weight))
  {
    hide Undo, CastProxy, UndoBlocked, CastBlocked, Formed, SameBallots, Registered;
    GraphRank(s);
    var rank :| Ranked(s.voters, rank);
    UndoBrokenIff(s, v, rank);
    UndoEnds(s, v, rank);
    var u := Undo(s, v, s.voters[v]);
    if u.Ok? {
      if proxy.Some? {
        CastBrokenIff(s, u.value, v, proxy.value, weight, voting);
      } else {
        CastNothing(u.value, v, weight, voting);
      }
    } else {
      OnlyBroken(u);
    }
  }

  lemma CastNothing(s: State, v: Name, weight: real, voting: bool)
    ensures CastProxy(s, v, None, weight, voting) == Ok(s)
  {
  }

  /** A vote on a sound table, new or refreshed, fails on a check of the contract's own exactly if such a ballot is met. */
  lemma UpdateVotesBrokenIff(s: State, v: Name, proxy: Option<Name>, producers: seq<Name>, voting: bool)
    requires Graph(s) && v in s.voters
    requires !voting ==> proxy == s.voters[v].proxy && producers == s.voters[v].producers
    ensures UpdateVotes(s, v, proxy, producers, voting) == Err(Broken)
            <==> ValidBallot(v, proxy, producers) && (proxy.None? || !s.voters[v].isProxy)
                 && VoteBlocked(s, v, proxy, producers, VoteWeight(s, s.voters[v]), voting)
  {
    hide MoveVotes, Recast, MoveProxied, Activate, VoteWeight, UndoBlocked, CastBlocked, Acyclic, SameBallots, Registered;
    assert BallotFormed(v, s.voters[v]);
    if ValidBallot(v, proxy, producers) && (proxy.None? || !s.voters[v].isProxy) {
      var r := s.voters[v];
      var weight := VoteWeight(s, r);
      var s0 := Activate(s, r);
      ActivateKeeps(s, r);
      MoveProxiedBrokenIff(s0, v, proxy, weight, voting);
      MoveProxiedEnds(s0, v, proxy, weight, voting);
      assert proxy.Some? && proxy.value in s.voters ==> BallotFormed(proxy.value, s.voters[proxy.value]);
      SameBlocked(s, s0, v, proxy, weight);
      var c := MoveProxied(s0, v, proxy, weight, voting);
      if c.Ok? {
        SameKeys(s0, c.value, {v});
        SameRow(s0, c.value, v);
        RecastBrokenIff(c.value, v, weight, proxy, producers, voting);
        MoveVotesEnds(c.value, Recast(r, weight, proxy, producers), Cast(voting));
      } else if !voting {
        OnlyBroken(c);
      }
    }
  }

  /** The tables but for one account's own stake and standing decide it. */
  ghost predicate SameButStake(s: State, t: State, v: Name) {
    && v in s.voters && v in t.voters
    && t.voters == s.voters[v := t.voters[v]] && t.producers == s.producers && t.factor == s.factor
    && t.voters[v] == s.voters[v].(staked := t.voters[v].staked)
  }

  lemma SameUndo(s: State, t: State, v: Name)
    requires Graph(s) && SameButStake(s, t, v)
    ensures UndoBlocked(t, v) == UndoBlocked(s, v)
    ensures forall q :: UndoMeets(t, v, q) == UndoMeets(s, v, q)
  {
    hide Formed, Blocked, Meets, SameBelow;
    GraphRank(s);
    var rank :| Ranked(s.voters, rank);
    var r := s.voters[v];
    if r.proxy.Some? {
      var x := r.proxy.value;
      SameBelowStake(s, t, v, x, rank);
      BlockedBelow(s, t, x, NextChange(s, x, -r.weight), {v}, rank);
    }
  }

  lemma SameBlocked(s: State, t: State, v: Name, proxy: Option<Name>, weight: real)
    requires Graph(s) && SameButStake(s, t, v)
    requires proxy.Some? ==> proxy.value != v
    ensures UndoBlocked(t, v) == UndoBlocked(s, v)
    ensures proxy.Some? && (s.voters[v].proxy == proxy || (proxy.value in s.voters && s.voters[proxy.value].proxy.None?)) ==>
      CastBlocked(t, v, proxy.value, weight) == CastBlocked(s, v, proxy.value, weight)
  {
    hide Graph, CastBlocked, UndoMeets, UndoBlocked;
    SameUndo(s, t, v);
    if proxy.Some? && (s.voters[v].proxy == proxy || (proxy.value in s.voters && s.voters[proxy.value].proxy.None?)) {
      SameCast(s, t, v, proxy.value, weight);
    }
  }

  lemma SameCast(s: State, t: State, v: Name, p: Name, weight: real)
    requires Graph(s) && SameButStake(s, t, v) && p != v && UndoMeets(t, v, p) == UndoMeets(s, v, p)
    requires s.voters[v].proxy == Some(p) || (p in s.voters && s.voters[p].proxy.None?)
    ensures CastBlocked(t, v, p, weight) == CastBlocked(s, v, p, weight)
  {
    hide Formed, Blocked, Meets, SameBelow, UndoMeets;
    GraphRank(s);
    RankLowest(s.voters, v, p);
    var below :| Ranked(s.voters, below) && below[p] < below[v];
    SameBelowStake(s, t, v, p, below);
    BlockedBelow(s, t, p, NextChange(s, p, weight), {v}, below);
    BlockedBelow(s, t, p, if s.voters[p].isProxy then weight else 0.0, {v}, below);
  }

  lemma SameBelowStake(s: State, t: State, v: Name, x: Name, rank: map<Name, nat>)
    requires SameButStake(s, t, v) && Ranked(s.voters, rank) && x in s.voters && rank[x] < rank[v]
    ensures SameBelow(s, t, x, rank)
  {
  }

  // ---------------------------------------------------------------------------------------------
  // The actions.

  /** Passing on the weight of a direct voter. */
  lemma DirectBrokenIff(s: State, v: Name, seen: set<Name>)
    requires v in s.voters && v !in seen && s.voters[v].proxy.None?
    ensures Propagate(s, v, seen) == Err(Broken)
            <==> Passes(VoteWeight(s, s.voters[v]) - s.voters[v].weight) && !AllRegistered(s.producers, s.voters[v].producers)
  {
    hide PassToProducers, VoteWeight;
    var r := s.voters[v];
    var delta := VoteWeight(s, r) - r.weight;
    PassToProducersFails(s, r.producers, delta, {});
    if PassToProducers(s, r.producers, delta).Ok? {
      EachRegistered(s, r.producers, delta);
    }
  }

  /** One account's stake, or its standing as a proxy, set aside. */
  lemma RowKeepsGraph(s: State, v: Name, row: Voter)
    requires Graph(s) && v in s.voters && BallotFormed(v, row)
    requires row == s.voters[v].(staked := row.staked, isProxy := row.isProxy)
    ensures Graph(s.(voters := s.voters[v := row]))
  {
    ReballotKeepsSameProxy(s.voters, v, row);
  }

  /** Whether changing an account's stake meets such a ballot: its own, or one its proxy's weight is passed on to. */
  predicate StakeBlocked(s: State, v: Name, delta: int) {
    && v in s.voters && s.voters[v].staked + delta >= 0
    && match s.voters[v].proxy
       case Some(p) => UndoBlocked(s, v) || CastBlocked(s, v, p, RevaluedWeight(s, v, delta))
       case None => RevaluedWeight(s, v, delta) >= 0.0 && !AllRegistered(s.producers, s.voters[v].producers)
  }

  lemma ChangeStakeBrokenIff(s: State, v: Name, delta: int)
    requires Graph(s)
    ensures ChangeStake(s, v, delta) == Err(Broken) <==> StakeBlocked(s, v, delta)
  {
    hide UpdateVotes, Acyclic, UndoBlocked, CastBlocked;
    if v in s.voters {
      var r := s.voters[v];
      assert BallotFormed(v, r);
      var row := r.(staked := r.staked + delta);
      var t := s.(voters := s.voters[v := row]);
      RowKeepsGraph(s, v, row);
      UpdateVotesBrokenIff(t, v, r.proxy, r.producers, false);
      SameBlocked(s, t, v, r.proxy, RevaluedWeight(s, v, delta));
      NotUndone(t, v);
    }
  }

  lemma NotUndone(s: State, v: Name)
    requires v in s.voters
    ensures s.voters[v].proxy.None? ==> !UndoBlocked(s, v)
  {
  }

  /** Whether a vote does: taking back the last one may, and casting the new one through a registered proxy. */
  predicate ProducerVoteBlocked(s: State, v: Name, proxy: Option<Name>, producers: seq<Name>, rexDelta: int) {
    && v in s.voters && ValidBallot(v, proxy, producers) && (proxy.None? || !s.voters[v].isProxy)
    && (|| UndoBlocked(s, v)
        || (proxy.Some? && proxy.value in s.voters && s.voters[proxy.value].isProxy
            && CastBlocked(s, v, proxy.value, RevaluedWeight(s, v, rexDelta))))
  }

  lemma VoteProducerBrokenIff(
    s: State, v: Name, proxy: Option<Name>, producers: seq<Name>, rexDelta: int, holdsRex: bool)
    requires Graph(s)
    ensures VoteProducer(s, v, proxy, producers, rexDelta, holdsRex) == Err(Broken)
            <==> ProducerVoteBlocked(s, v, proxy, producers, rexDelta)
  {
    hide UpdateVotes, Acyclic, UndoBlocked, CastBlocked;
    if v in s.voters {
      var r := s.voters[v];
      assert BallotFormed(v, r);
      var row := r.(staked := r.staked + rexDelta);
      var t := s.(voters := s.voters[v := row]);
      RowKeepsGraph(s, v, row);
      UpdateVotesBrokenIff(t, v, proxy, producers, true);
      if proxy.Some? ==> proxy.value != v {
        assert proxy.Some? && proxy.value in s.voters ==> BallotFormed(proxy.value, s.voters[proxy.value]);
        SameBlocked(s, t, v, proxy, RevaluedWeight(s, v, rexDelta));
      }
    } else {
      NoVoter(s, v, proxy, producers);
    }
  }

  lemma RowBelow(s: State, v: Name, row: Voter, rank: map<Name, nat>)
    requires Ranked(s.voters, rank) && v in s.voters
    requires row == s.voters[v].(staked := row.staked, isProxy := row.isProxy)
    ensures SameBelow(s, s.(voters := s.voters[v := row]), v, rank)
    ensures Ranked(s.voters[v := row], rank)
  {
  }

  /** Whether registering or unregistering a proxy does. */
  predicate ProxyBlocked(s: State, v: Name, isProxy: bool) {
    && v in s.voters && isProxy != s.voters[v].isProxy && (!isProxy || s.voters[v].proxy.None?)
    && Blocked(s, v, VoteWeight(s, s.voters[v].(isProxy := isProxy)) - s.voters[v].weight, {})
  }

  lemma RegProxyBrokenIff(s: State, v: Name, isProxy: bool)
    requires Graph(s)
    ensures RegProxy(s, v, isProxy) == Err(Broken) <==> ProxyBlocked(s, v, isProxy)
  {
    hide Propagate, Blocked, Meets, SameBelow, Ranked, Stake2Vote;
    if v in s.voters && isProxy != s.voters[v].isProxy && (!isProxy || s.voters[v].proxy.None?) {
      var row := s.voters[v].(isProxy := isProxy);
      var t := s.(voters := s.voters[v := row]);
      assert BallotFormed(v, s.voters[v]);
      RowKeepsGraph(s, v, row);
      GraphRank(s);
      var rank :| Ranked(s.voters, rank);
      RowBelow(s, v, row, rank);
      PropagateBrokenIff(t, v, {}, rank);
      BlockedBelow(s, t, v, VoteWeight(s, row) - row.weight, {}, rank);
    }
  }
}
