/** What each action of voting, election and pay comes to, in figures: when it goes through, and what it leaves. */
module GovernanceActions {
  import opened Basics
  import opened Ledger
  import opened Voting
  import opened VotePay
  import opened ProxyGraph
  import opened VoteTallies
  import opened VoteBallots
  import opened VoteActions
  import opened VoteWeights
  import opened VoteBlocks
  import opened Governance
  import opened GovernanceRuns

  // ---------------------------------------------------------------------------------------------
  // Claims.

  /** Inflation since the buckets were last filled: 4.879% a year of 52 weeks. */
  function Inflation(pay: Pay, now: int): int {
    if now > pay.lastFill > 0 then 4879 * pay.supply * (now - pay.lastFill) / (100_000 * 31_449_600_000_000) else 0
  }

  /** The bucket paid out by blocks, once refilled: a quarter of the fifth that goes to producers is added to it. */
  function BlockBucket(pay: Pay, now: int): int {
    pay.perBlock + Inflation(pay, now) / 5 / 4
  }

  function VoteBucket(pay: Pay, now: int): int {
    pay.perVote + (Inflation(pay, now) / 5 - Inflation(pay, now) / 5 / 4)
  }

  /** The refilled buckets and every account's tokens after a refill. */
  lemma RefillFigures(pay: Pay, now: int)
    requires Refill(pay, now).Ok?
    ensures var t := Refill(pay, now).value;
            var issued := Inflation(pay, now);
            && t == pay.(tokens := t.tokens, supply := pay.supply + issued, perVote := VoteBucket(pay, now),
                         perBlock := BlockBucket(pay, now), lastFill := if now > pay.lastFill > 0 then now else pay.lastFill)
            && forall a :: At(t.tokens, a) == At(pay.tokens, a)
                 + (if a == SAVING_ACCOUNT then issued - issued / 5 else 0)
                 + (if a == BPAY_ACCOUNT then issued / 5 / 4 else 0)
                 + (if a == VPAY_ACCOUNT then issued / 5 - issued / 5 / 4 else 0)
  {
  }

  /** Blocks are paid in proportion, rounded down. */
  function DueForBlocks(c: Chain, p: Name): int
    requires p in c.v.producers
  {
    if c.pay.unpaid > 0 then BlockBucket(c.pay, c.v.now) * c.v.producers[p].unpaid / c.pay.unpaid else 0
  }

  /** What accrues at a rate per second in a span of microseconds, if time has passed and something accrues. */
  function Accruing(rate: real, from: int, now: int): real {
    if now > from then rate * ((now - from) as real / 1_000_000.0) else 0.0
  }

  /** The global share up to now, which does not fall below zero. */
  function ShareOfAll(s: State): real {
    var grown := Accruing(s.rate, s.shareTime, s.now);
    if grown < 0.0 && s.totalShare + grown < 0.0 then 0.0 else s.totalShare + grown
  }

  /** A producer's share up to now: it grows by its votes until three days after its last claim. */
  function ShareOf(r: Producer, now: int): real {
    r.share + (if r.updated < r.lastClaim + 259_200_000_000 && r.votes > 0.0 then Accruing(r.votes, r.updated, now) else 0.0)
  }

  /** A bucket's part, rounded down. */
  function Proportion(bucket: int, part: real, whole: real): int
    requires whole > 0.0
  {
    (bucket as real * part / whole).Floor
  }

  /**
   Votes are paid, since the first revision, in proportion to shares until three days after the last claim,
   and before it in proportion to present votes; rounded down, and nothing below a hundred tokens.
   */
  function DueForVotes(c: Chain, p: Name): int
    requires p in c.v.producers
  {
    var r, bucket := c.v.producers[p], VoteBucket(c.pay, c.v.now);
    var due :=
      if c.pay.revision > 0 then
        if ShareOfAll(c.v) > 0.0 && c.v.now < r.lastClaim + 259_200_000_000 then
          Min(Proportion(bucket, ShareOf(r, c.v.now), ShareOfAll(c.v)), bucket)
        else 0
      else if c.v.totalWeight > 0.0 then Proportion(bucket, r.votes, c.v.totalWeight)
      else 0;
    if due < 1_000_000 then 0 else due
  }

  lemma BlocksAreDue(c: Chain, p: Name)
    requires p in c.v.producers && Refill(c.pay, c.v.now).Ok?
    ensures BlockPay(Refill(c.pay, c.v.now).value, c.v.producers[p]) == DueForBlocks(c, p)
  {
    hide Refill, Inflation;
    RefillFigures(c.pay, c.v.now);
  }

  lemma VotesAreDue(c: Chain, p: Name)
    requires p in c.v.producers && Refill(c.pay, c.v.now).Ok?
    ensures ClaimVotePay(c.v, Refill(c.pay, c.v.now).value, p) == DueForVotes(c, p)
  {
    hide Refill, Inflation, ShareOfAll, ShareOf, ClaimedShare, PartOf, Proportion, VoteBucket, AtClaim;
    RefillFigures(c.pay, c.v.now);
    SharesAre(c.v, p);
    var s, r, bucket := c.v, c.v.producers[p], VoteBucket(c.pay, c.v.now);
    if ShareOfAll(s) > 0.0 {
      PartIs(bucket, ShareOf(r, s.now), ShareOfAll(s));
    }
    if s.totalWeight > 0.0 {
      PartIs(bucket, r.votes, s.totalWeight);
    }
  }

  lemma PartIs(bucket: int, part: real, whole: real)
    requires whole > 0.0
    ensures PartOf(bucket, part, whole) == Proportion(bucket, part, whole)
  {
  }

  lemma SharesAre(s: State, p: Name)
    requires p in s.producers
    ensures AtClaim(s, p, true).totalShare == ShareOfAll(s) && AtClaim(s, p, false).totalWeight == s.totalWeight
    ensures ClaimedShare(s.producers[p], s.now) == ShareOf(s.producers[p], s.now)
  {
  }

  /** Whether a producer may claim: it is active, the chain is live, a day has passed, and a token is due by blocks. */
  predicate ClaimAllowed(c: Chain, p: Name) {
    && p in c.v.producers && c.v.producers[p].active
    && c.v.activatedStake >= 1_500_000_000_000 && c.v.now - c.v.producers[p].lastClaim > 86_400_000_000
    && (c.v.now > c.pay.lastFill > 0 ==> Inflation(c.pay, c.v.now) / 5 / 4 > 0)
  }

  /**
   A claim goes through exactly if it is allowed and its pay by votes is in the bucket. The claimant gets its
   part of both buckets, which they lose, and nobody else is paid but from inflation; its share and its unpaid
   blocks are gone.
   */
  lemma ClaimPays(c: Chain, p: Name)
    requires Healthy(c)
    ensures var r := ClaimRewards(c, p);
            && (r.Ok? <==> ClaimAllowed(c, p) && DueForVotes(c, p) <= VoteBucket(c.pay, c.v.now))
            && (r.Ok? ==>
                  var d, issued := r.value, Inflation(c.pay, c.v.now);
                  && d.pay.perBlock == BlockBucket(c.pay, c.v.now) - DueForBlocks(c, p)
                  && d.pay.perVote == VoteBucket(c.pay, c.v.now) - DueForVotes(c, p)
                  && d.pay.unpaid == c.pay.unpaid - c.v.producers[p].unpaid
                  && d.pay.supply == c.pay.supply + issued && d.pay.revision == c.pay.revision
                  && (forall a :: At(d.pay.tokens, a) == At(c.pay.tokens, a)
                        + (if a == p then DueForBlocks(c, p) + DueForVotes(c, p) else 0)
                        + (if a == SAVING_ACCOUNT then issued - issued / 5 else 0)
                        + (if a == BPAY_ACCOUNT then issued / 5 / 4 - DueForBlocks(c, p) else 0)
                        + (if a == VPAY_ACCOUNT then issued / 5 - issued / 5 / 4 - DueForVotes(c, p) else 0)))
  {
    hide Sound, Refill, BlockPay, ClaimVotePay, PayOut, AfterClaim, Inflation, DueForVotes, DueForBlocks, NewTokens, PartOf;
    ClaimRewardsKept(c, p);
    RefillIff(c.pay, c.v.now);
    InflationIs(c.pay, c.v.now);
    if p in c.v.producers && Refill(c.pay, c.v.now).Ok? {
      var pay := Refill(c.pay, c.v.now).value;
      RefillFigures(c.pay, c.v.now);
      RefillSplits(c.pay, c.v.now);
      BlocksAreDue(c, p);
      VotesAreDue(c, p);
      ClaimPaid(c, p, pay);
      BlockPayWithinBucket(c, p, pay);
      VotePayNonNegative(c.v, pay, p);
      PaidOut(pay.tokens, p, DueForBlocks(c, p), DueForVotes(c, p));
    }
  }

  lemma InflationIs(pay: Pay, now: int)
    ensures RefillDue(pay, now) <==> now > pay.lastFill > 0
    ensures RefillDue(pay, now) ==> ToProducers(pay, now) == Inflation(pay, now) / 5
  {
  }

  lemma PaidOut(tokens: Tokens, p: Name, blocks: int, votes: int)
    requires 0 <= blocks && 0 <= votes && p != BPAY_ACCOUNT && p != VPAY_ACCOUNT
    requires PayOut(tokens, BPAY_ACCOUNT, p, blocks).Ok?
    ensures var t := PayOut(PayOut(tokens, BPAY_ACCOUNT, p, blocks).value, VPAY_ACCOUNT, p, votes);
            t.Ok? ==> forall a :: At(t.value, a) == At(tokens, a) + (if a == p then blocks + votes else 0)
                        - (if a == BPAY_ACCOUNT then blocks else 0) - (if a == VPAY_ACCOUNT then votes else 0)
  {
  }

  /** The tables after a claim: the claimant's share, unpaid blocks and time of claim; no other row. */
  lemma ClaimLeaves(c: Chain, p: Name)
    requires ClaimRewards(c, p).Ok?
    ensures var t := ClaimRewards(c, p).value.v;
            && p in c.v.producers && t.producers.Keys == c.v.producers.Keys
            && (forall q :: q in c.v.producers && q != p ==> t.producers[q] == c.v.producers[q])
            && t.producers[p] == c.v.producers[p].(share := 0.0, updated := c.v.now, lastClaim := c.v.now, unpaid := 0)
            && t.voters == c.v.voters && t.totalWeight == c.v.totalWeight && t.activatedStake == c.v.activatedStake
            && t.now == c.v.now && t.factor == c.v.factor && t.threshTime == c.v.threshTime
  {
    hide Refill, BlockPay, ClaimVotePay, PayOut, Growth;
  }

  // ---------------------------------------------------------------------------------------------
  // Votes.

  predicate MayGetVotes(producers: map<Name, Producer>, p: Name) {
    p in producers && producers[p].active
  }

  /** Votes are refused if one of those newly voted for is not an active producer, and for nothing else. */
  lemma {:induction false} NewOnesActive(s: State, ds: seq<Delta>)
    ensures ShiftAll(s, ds, Cast(true)).Ok? <==> forall d :: d in ds && d.isNew ==> MayGetVotes(s.producers, d.producer)
    decreases |ds|
  {
    hide ShiftProducer;
    if ds != [] {
      var rest, d := ds[..|ds| - 1], ds[|ds| - 1];
      NewOnesActive(s, rest);
      ShiftAllFrame(s, rest, Cast(true));
      assert forall e :: e in ds <==> e in rest || e == d;
    }
  }

  lemma RecastActive(s: State, v: Name, weight: real, proxy: Option<Name>, producers: seq<Name>)
    requires v in s.voters && (proxy.Some? ==> producers == [])
    ensures MoveVotes(s, Recast(s.voters[v], weight, proxy, producers), Cast(true)).Ok?
            <==> (weight >= 0.0 ==> forall p :: p in producers ==> MayGetVotes(s.producers, p))
  {
    hide ShiftAll, BallotDeltas;
    var r := s.voters[v];
    var before := if r.weight > 0.0 && r.proxy.None? then r.producers else [];
    var after := if weight >= 0.0 && proxy.None? then producers else [];
    var ds := BallotDeltas(before, r.weight, after, weight);
    NewOnesActive(s, ds);
    BallotDeltasMove(before, r.weight, after, weight);
    forall p | p in after
      ensures exists d :: d in ds && d.producer == p && d.isNew
    {
      BallotDeltasName(before, r.weight, after, weight, p);
    }
  }

  /** A ballot as the rules want it: a registered proxy that is another account, or at most thirty names in order. */
  predicate BallotAllowed(s: State, v: Name, proxy: Option<Name>, producers: seq<Name>) {
    match proxy
    case Some(x) => producers == [] && x != v && x in s.voters && s.voters[x].isProxy && v in s.voters && !s.voters[v].isProxy
    case None => |producers| <= 30 && forall i, j :: 0 <= i < j < |producers| ==> producers[i] < producers[j]
  }

  /** While stored ballots are of registered producers, moving a vote between proxies is refused only for the proxy chosen. */
  lemma MovingProxies(s: State, v: Name, proxy: Option<Name>, weight: real)
    requires Graph(s) && Registered(s) && v in s.voters && (proxy.Some? ==> proxy.value != v)
    ensures MoveProxied(s, v, proxy, weight, true).Ok?
            <==> (proxy.Some? ==> proxy.value in s.voters && s.voters[proxy.value].isProxy)
  {
    hide Propagate, SameBallots, Registered, Acyclic;
    GraphRank(s);
    var rank :| Ranked(s.voters, rank);
    UndoEnds(s, v, rank);
    var u := Undo(s, v, s.voters[v]);
    assert u.Ok?;
    SameBallotsKeepGraph(s, u.value, {v});
    SameTables(s, u.value, {v});
    if proxy.Some? && proxy.value in s.voters && s.voters[proxy.value].isProxy {
      var x := proxy.value;
      assert BallotFormed(x, u.value.voters[x]);
      CastEnds(u.value, v, proxy, weight, true);
      CastAccepted(u.value, v, x, weight);
      NoError(CastProxy(u.value, v, proxy, weight, true));
    }
  }

  lemma NoError<T>(r: Result<T>)
    requires r != Err(Broken) && r != Err(Endless) && r != Err(Rejected)
    ensures r.Ok?
  {
    if r.Err? {
      OnlyBroken(r);
    }
  }

  lemma SameTables(s: State, u: State, fixed: set<Name>)
    requires SameBallots(s, u, fixed)
    ensures u.voters.Keys == s.voters.Keys && u.producers.Keys == s.producers.Keys
    ensures forall x :: x in s.voters ==> u.voters[x].isProxy == s.voters[x].isProxy
    ensures forall p :: p in s.producers ==> u.producers[p].active == s.producers[p].active
  {
  }

  /** Casting through a registered proxy is never refused. */
  lemma CastAccepted(s: State, v: Name, x: Name, weight: real)
    requires Graph(s) && v in s.voters && x in s.voters && x != v && s.voters[x].isProxy
    ensures CastProxy(s, v, Some(x), weight, true) != Err(Rejected)
  {
    hide Propagate, SameBallots, Registered, ValidBallot;
    assert BallotFormed(x, s.voters[x]);
    RankLowest(s.voters, v, x);
    var rank :| Ranked(s.voters, rank) && rank[x] < rank[v];
    EndsFromCarrying(s, x, weight, v, rank);
  }

  /**
   Which votes `update_votes` accepts: a voter's, on an allowed ballot; if it is worth anything, all producers
   on it must be registered and active.
   */
  lemma UpdateVotesOkIff(s: State, v: Name, proxy: Option<Name>, producers: seq<Name>)
    requires Graph(s) && Registered(s)
    ensures UpdateVotes(s, v, proxy, producers, true).Ok?
            <==> && v in s.voters && BallotAllowed(s, v, proxy, producers)
                 && (VoteWeight(s, s.voters[v]) >= 0.0 ==> forall p :: p in producers ==> MayGetVotes(s.producers, p))
  {
    hide MoveVotes, Recast, MoveProxied, Activate, VoteWeight, SameBallots, Registered, Acyclic;
    if v in s.voters && ValidBallot(v, proxy, producers) && (proxy.None? || !s.voters[v].isProxy) {
      var r := s.voters[v];
      var weight := VoteWeight(s, r);
      var s0 := Activate(s, r);
      ActivateKeeps(s, r);
      MovingProxies(s0, v, proxy, weight);
      MoveProxiedEnds(s0, v, proxy, weight, true);
      var c := MoveProxied(s0, v, proxy, weight, true);
      if c.Ok? {
        SameTables(s0, c.value, {v});
        SameRow(s0, c.value, v);
        RecastActive(c.value, v, weight, proxy, producers);
        MoveVotesEnds(c.value, Recast(r, weight, proxy, producers), Cast(true));
      }
    }
  }

  /** Which votes `voteproducer` accepts, and that an account holding REX must name a proxy or at least 21 producers. */
  lemma VoteProducerOkIff(s: State, v: Name, proxy: Option<Name>, producers: seq<Name>, rexDelta: int, holdsRex: bool)
    requires Sound(s) && Registered(s)
    ensures VoteProducer(s, v, proxy, producers, rexDelta, holdsRex).Ok?
            <==> && v in s.voters && BallotAllowed(s, v, proxy, producers)
                 && (RevaluedWeight(s, v, rexDelta) >= 0.0 ==> forall p :: p in producers ==> MayGetVotes(s.producers, p))
                 && (holdsRex ==> proxy.Some? || 21 <= |producers|)
  {
    hide UpdateVotes, Exact, Acyclic, Stake2Vote, Registered, Formed;
    if v in s.voters {
      var row := s.voters[v].(staked := s.voters[v].staked + rexDelta);
      StoredFormed(s, v);
      RowKeepsSound(s, v, row);
      var t := s.(voters := s.voters[v := row]);
      UpdateVotesOkIff(t, v, proxy, producers);
      assert BallotAllowed(t, v, proxy, producers) <==> BallotAllowed(s, v, proxy, producers);
    } else {
      NoVoter(s, v, proxy, producers);
    }
  }

  lemma StoredFormed(s: State, v: Name)
    requires Formed(s) && v in s.voters
    ensures BallotFormed(v, s.voters[v])
  {
  }

  /** Whether some of the votes moved concern a producer. */
  predicate Concerns(ds: seq<Delta>, p: Name) {
    exists i :: 0 <= i < |ds| && ds[i].producer == p
  }

  function AtLeastZero(votes: real): real {
    if votes < 0.0 then 0.0 else votes
  }

  lemma {:induction false} VotesMoved(s: State, ds: seq<Delta>, voting: bool)
    requires Distinct(ds) && ShiftAll(s, ds, Cast(voting)).Ok?
    ensures var t := ShiftAll(s, ds, Cast(voting)).value.s;
            && t.producers.Keys == s.producers.Keys
            && forall p :: p in s.producers ==>
                 t.producers[p].votes
                 == if Concerns(ds, p) then AtLeastZero(s.producers[p].votes + MovedTo(ds, p)) else s.producers[p].votes
    decreases |ds|
  {
    hide Growth, MovedTo, Concerns;
    if ds == [] {
      assert forall p :: !Concerns(ds, p) by { NoneConcerned(); }
    } else {
      var rest, d := ds[..|ds| - 1], ds[|ds| - 1];
      VotesMoved(s, rest, voting);
      forall p | p in s.producers
        ensures Concerns(ds, p) <==> Concerns(rest, p) || p == d.producer
        ensures MovedTo(ds, p) == MovedTo(rest, p) + if p == d.producer then d.votes else 0.0
        ensures p == d.producer ==> !Concerns(rest, p) && MovedTo(rest, p) == 0.0
      {
        OneMore(ds, p);
      }
    }
  }

  lemma NoneConcerned()
    ensures forall p :: !Concerns([], p)
  {
  }

  lemma OneMore(ds: seq<Delta>, p: Name)
    requires ds != [] && Distinct(ds)
    ensures var rest, d := ds[..|ds| - 1], ds[|ds| - 1];
            && (Concerns(ds, p) <==> Concerns(rest, p) || p == d.producer)
            && MovedTo(ds, p) == MovedTo(rest, p) + (if p == d.producer then d.votes else 0.0)
            && (p == d.producer ==> !Concerns(rest, p) && MovedTo(rest, p) == 0.0)
  {
    var rest, d := ds[..|ds| - 1], ds[|ds| - 1];
    if p == d.producer {
      assert ds[|ds| - 1].producer == p;
      MovedToNone(rest, p);
    }
    if Concerns(rest, p) {
      var i :| 0 <= i < |rest| && rest[i].producer == p;
      assert ds[i].producer == p;
    }
  }

  /** Brought up to now and corrected, neither the global share nor its rate of growth falls below zero. */
  lemma TotalsStay(s: State, extra: real, rateDelta: real)
    requires s.totalShare >= 0.0 && s.rate >= 0.0
    ensures var t := UpdateTotalShare(s, extra, rateDelta);
            && t.totalShare == AtLeastZero(s.totalShare + Accruing(s.rate, s.shareTime, s.now) + extra)
            && t.rate == AtLeastZero(s.rate + rateDelta)
            && t == s.(totalShare := t.totalShare, rate := t.rate, shareTime := s.now)
  {
  }

  /** The producers an account's stored vote counts for, and those its next one would. */
  function Counting(weight: real, producers: seq<Name>): seq<Name> {
    if weight > 0.0 then producers else []
  }

  function CountingNow(weight: real, producers: seq<Name>): seq<Name> {
    if weight >= 0.0 then producers else []
  }

  /**
   A direct vote takes the old weight from the producers voted for before and gives the new one to those voted for
   now; none of either ends below zero, and no other producer's votes change.
   */
  lemma DirectVotesCount(s: State, v: Name, producers: seq<Name>, rexDelta: int, holdsRex: bool)
    requires VoteProducer(s, v, None, producers, rexDelta, holdsRex).Ok? && (v in s.voters ==> s.voters[v].proxy.None?)
    ensures v in s.voters
    ensures var t := VoteProducer(s, v, None, producers, rexDelta, holdsRex).value;
            var r, weight := s.voters[v], RevaluedWeight(s, v, rexDelta);
            var before, after := Counting(r.weight, r.producers), CountingNow(weight, producers);
            && t.producers.Keys == s.producers.Keys
            && forall p :: p in s.producers ==>
                 t.producers[p].votes
                 == if p in before || p in after then
                      AtLeastZero(s.producers[p].votes + (if p in after then weight else 0.0)
                                  - (if p in before then r.weight else 0.0))
                    else s.producers[p].votes
  {
    hide UpdateVotes, VoteWeight, Activate;
    if v in s.voters {
      var row := s.voters[v].(staked := s.voters[v].staked + rexDelta);
      UpdateVotesCounts(s.(voters := s.voters[v := row]), v, producers);
      SameWeight(s, s.voters[v := row], row);
    } else {
      NoVoter(s, v, None, producers);
    }
  }

  lemma SameWeight(s: State, voters: map<Name, Voter>, row: Voter)
    ensures VoteWeight(s.(voters := voters), row) == VoteWeight(s, row)
  {
  }

  lemma UpdateVotesCounts(s: State, v: Name, producers: seq<Name>)
    requires v in s.voters && s.voters[v].proxy.None? && UpdateVotes(s, v, None, producers, true).Ok?
    ensures var t, r, weight := UpdateVotes(s, v, None, producers, true).value, s.voters[v], VoteWeight(s, s.voters[v]);
            var before, after := Counting(r.weight, r.producers), CountingNow(weight, producers);
            && t.producers.Keys == s.producers.Keys
            && forall p :: p in s.producers ==>
                 t.producers[p].votes
                 == if p in before || p in after then
                      AtLeastZero(s.producers[p].votes + (if p in after then weight else 0.0)
                                  - (if p in before then r.weight else 0.0))
                    else s.producers[p].votes
  {
    hide ShiftAll, BallotDeltas, VoteWeight, Concerns, MovedTo, Distinct, ValidBallot;
    var r, weight := s.voters[v], VoteWeight(s, s.voters[v]);
    var before, after := Counting(r.weight, r.producers), CountingNow(weight, producers);
    var t, ds := Activate(s, r), BallotDeltas(before, r.weight, after, weight);
    assert Recast(r, weight, None, producers) == ds;
    assert MoveProxied(t, v, None, weight, true) == Ok(t);
    BallotDeltasMove(before, r.weight, after, weight);
    VotesMoved(t, ds, true);
    forall p
      ensures Concerns(ds, p) <==> p in before || p in after
    {
      BallotConcerns(before, r.weight, after, weight, p);
    }
  }

  lemma BallotConcerns(before: seq<Name>, oldWeight: real, after: seq<Name>, newWeight: real, p: Name)
    ensures Concerns(BallotDeltas(before, oldWeight, after, newWeight), p) <==> p in before || p in after
  {
    hide BallotNames;
    var names, ds := BallotNames(before, after), BallotDeltas(before, oldWeight, after, newWeight);
    if p in before || p in after {
      var i :| 0 <= i < |names| && names[i] == p;
      assert ds[i].producer == p;
    }
    if Concerns(ds, p) {
      var i :| 0 <= i < |ds| && ds[i].producer == p;
      assert names[i] == p;
    }
  }

  /** What a vote leaves of the voter's row, and of the stake that counts as activated. */
  lemma VoteLeaves(s: State, v: Name, proxy: Option<Name>, producers: seq<Name>, rexDelta: int, holdsRex: bool)
    requires Sound(s) && VoteProducer(s, v, proxy, producers, rexDelta, holdsRex).Ok?
    ensures v in s.voters
    ensures var t, r := VoteProducer(s, v, proxy, producers, rexDelta, holdsRex).value, s.voters[v];
            && v in t.voters
            && t.voters[v] == r.(staked := r.staked + rexDelta, weight := RevaluedWeight(s, v, rexDelta),
                                 proxy := proxy, producers := producers)
            && StakeActivated(s, t, if r.weight > 0.0 then 0 else r.staked + rexDelta)
            && (forall u :: u in s.voters && u != v ==>
                  u in t.voters && t.voters[u] == s.voters[u].(weight := t.voters[u].weight, proxied := t.voters[u].proxied))
            && t.voters.Keys == s.voters.Keys
  {
    hide UpdateVotes, Exact, Acyclic, VoteWeight, Registered, ValidBallot;
    ProducerVoteStores(s, v, proxy, producers, rexDelta, holdsRex);
    var row := s.voters[v].(staked := s.voters[v].staked + rexDelta);
    StoredFormed(s, v);
    RowKeepsSound(s, v, row);
    var t := s.(voters := s.voters[v := row]);
    UpdateVotesLeaves(t, v, proxy, producers, true);
  }

  /** The chain is live from the time on when a stake of 15% of the usual supply has voted. */
  predicate StakeActivated(s: State, t: State, amount: int) {
    && t.activatedStake == s.activatedStake + amount
    && (t.threshTime == s.threshTime || (s.threshTime == 0 && t.threshTime == s.now && t.activatedStake >= 1_500_000_000_000))
    && (amount != 0 && t.activatedStake >= 1_500_000_000_000 && s.threshTime == 0 ==> t.threshTime == s.now)
  }

  lemma ActivateFigures(s: State, r: Voter)
    ensures StakeActivated(s, Activate(s, r), if r.weight > 0.0 then 0 else r.staked)
  {
  }

  lemma UpdateVotesLeaves(s: State, v: Name, proxy: Option<Name>, producers: seq<Name>, voting: bool)
    requires Graph(s) && v in s.voters && UpdateVotes(s, v, proxy, producers, voting).Ok?
    requires !voting ==> proxy == s.voters[v].proxy && producers == s.voters[v].producers
    ensures var t, r := UpdateVotes(s, v, proxy, producers, voting).value, s.voters[v];
            && v in t.voters && t.voters[v] == r.(weight := VoteWeight(s, r), proxy := proxy, producers := producers)
            && StakeActivated(s, t, if r.weight > 0.0 then 0 else r.staked)
            && (forall u :: u in s.voters && u != v ==>
                  u in t.voters && t.voters[u] == s.voters[u].(weight := t.voters[u].weight, proxied := t.voters[u].proxied))
            && t.voters.Keys == s.voters.Keys
  {
    hide MoveVotes, Recast, MoveProxied, Activate, VoteWeight, Registered, Acyclic, ValidBallot;
    StoredFormed(s, v);
    var r := s.voters[v];
    var s0 := Activate(s, r);
    ActivateFigures(s, r);
    ActivateKeeps(s, r);
    BallotMayUse(s, v, proxy, producers, voting);
    MoveProxiedEnds(s0, v, proxy, VoteWeight(s, r), voting);
    var c := MoveProxied(s0, v, proxy, VoteWeight(s, r), voting).value;
    MoveVotesEnds(c, Recast(r, VoteWeight(s, r), proxy, producers), Cast(voting));
  }

  lemma BallotMayUse(s: State, v: Name, proxy: Option<Name>, producers: seq<Name>, voting: bool)
    requires v in s.voters && UpdateVotes(s, v, proxy, producers, voting).Ok?
    requires !voting ==> proxy == s.voters[v].proxy
    ensures MayUse(s, v, proxy, voting)
  {
    hide MoveVotes, Recast, MoveProxied, Activate, VoteWeight;
  }

  // ---------------------------------------------------------------------------------------------
  // Stakes and proxies.

  function StakeOf(s: State, v: Name): int {
    if v in s.voters then s.voters[v].staked else 0
  }

  /** An account's stake may change to anything not negative; if it has voted, its vote is refreshed. */
  lemma StakeChanges(s: State, v: Name, delta: int)
    requires Sound(s) && Registered(s)
    ensures var r := ChangeStake(s, v, delta);
            && (r.Ok? <==> StakeOf(s, v) + delta >= 0)
            && (r.Ok? ==>
                  var t, row := r.value, if v in s.voters then s.voters[v] else Voter(None, [], 0, 0.0, 0.0, false);
                  && v in t.voters && t.voters[v].staked == StakeOf(s, v) + delta
                  && t.voters[v].weight == (if HasBallot(row) then RevaluedWeightOf(s, row, delta) else row.weight)
                  && t.voters[v].proxy == row.proxy && t.voters[v].producers == row.producers
                  && t.voters[v].isProxy == row.isProxy && t.voters[v].proxied == row.proxied
                  && StakeActivated(s, t, if HasBallot(row) && row.weight <= 0.0 then StakeOf(s, v) + delta else 0))
  {
    hide UpdateVotes, Exact, Acyclic, VoteWeight, RevaluedWeightOf, Registered, ValidBallot;
    ChangeStakeKept(s, v, delta);
    if v in s.voters {
      WeightFigures(s, s.voters[v], delta);
      var row := s.voters[v].(staked := s.voters[v].staked + delta);
      StoredFormed(s, v);
      RowKeepsSound(s, v, row);
      var t := s.(voters := s.voters[v := row]);
      if HasBallot(row) {
        UpdateVotesKeepsGraph(t, v, row.proxy, row.producers, false);
        if UpdateVotes(t, v, row.proxy, row.producers, false).Ok? {
          UpdateVotesLeaves(t, v, row.proxy, row.producers, false);
        } else {
          OnlyBroken(UpdateVotes(t, v, row.proxy, row.producers, false));
        }
      }
    }
  }

  /** What an account's row would weigh with its stake changed. */
  function RevaluedWeightOf(s: State, r: Voter, delta: int): real {
    (r.staked + delta) as real * s.factor + (if r.isProxy then r.proxied else 0.0)
  }

  lemma WeightFigures(s: State, r: Voter, delta: int)
    ensures forall voters :: VoteWeight(s.(voters := voters), r.(staked := r.staked + delta)) == RevaluedWeightOf(s, r, delta)
  {
  }

  /** An account changes between being a proxy and not; it cannot become one while it uses one. */
  lemma ProxyRegisters(s: State, v: Name, isProxy: bool)
    requires Sound(s) && Registered(s)
    ensures var r := RegProxy(s, v, isProxy);
            && (r.Ok? <==> (v in s.voters ==> isProxy != s.voters[v].isProxy && (isProxy ==> s.voters[v].proxy.None?)))
            && (r.Ok? ==>
                  var t, row := r.value, if v in s.voters then s.voters[v] else Voter(None, [], 0, 0.0, 0.0, isProxy);
                  && v in t.voters
                  && t.voters[v] == row.(
                       isProxy := isProxy,
                       weight := if v in s.voters then RevaluedWeightOf(s, row.(isProxy := isProxy), 0) else 0.0))
  {
    hide Propagate, Exact, Acyclic, VoteWeight, RevaluedWeightOf, Registered, ValidBallot;
    RegProxyKept(s, v, isProxy);
    if v in s.voters && isProxy != s.voters[v].isProxy && (isProxy ==> s.voters[v].proxy.None?) {
      var row := s.voters[v].(isProxy := isProxy);
      var t := s.(voters := s.voters[v := row]);
      StoredFormed(s, v);
      RowKeepsSound(s, v, row);
      WeightFigures(s, row, 0);
      assert row.(staked := row.staked + 0) == row;
      PropagateLeaves(t, v);
      NoError(RegProxy(s, v, isProxy));
    }
  }

  lemma PropagateLeaves(s: State, v: Name)
    requires Graph(s) && v in s.voters
    ensures var r := Propagate(s, v, {});
            && r != Err(Rejected) && r != Err(Endless)
            && (r.Ok? ==> v in r.value.voters && r.value.voters[v] == s.voters[v].(weight := VoteWeight(s, s.voters[v])))
  {
    hide Propagate, PassOn, SameBallots, VoteWeight, Registered, BallotFormed;
    GraphRank(s);
    var rank :| Ranked(s.voters, rank);
    PropagateEnds(s, v, {}, rank);
    if Propagate(s, v, {}).Ok? {
      PropagateStores(s, v, {});
      PassOnSettles(s, v, VoteWeight(s, s.voters[v]) - s.voters[v].weight, {}, rank, v);
    }
  }

  // ---------------------------------------------------------------------------------------------
  // Producers, blocks, and the clock.

  /** Registering makes a producer active; its votes, shares and unpaid blocks stay, and it starts without any. */
  lemma ProducerRegisters(c: Chain, p: Name)
    ensures var s, r := c.v, Step(c, ActRegProducer(p));
            && r.Ok? && var t := r.value.v;
            && r.value == c.(v := s.(producers := t.producers)) && p in t.producers
            && t.producers[p] == (if p in s.producers
                                  then s.producers[p].(active := true,
                                         lastClaim := if s.producers[p].lastClaim == 0 then s.now else s.producers[p].lastClaim)
                                  else Producer(0.0, true, 0, s.now, 0.0, s.now))
            && t.producers.Keys == s.producers.Keys + {p}
            && forall q :: q in s.producers && q != p ==> t.producers[q] == s.producers[q]
  {
  }

  /** Unregistering makes a producer inactive, and changes nothing else. */
  lemma ProducerUnregisters(c: Chain, p: Name)
    ensures var s, r := c.v, Step(c, ActDeactivate(p));
            && (r.Ok? <==> p in s.producers)
            && (r.Ok? ==>
                  var t := r.value.v;
                  && r.value == c.(v := s.(producers := t.producers)) && t.producers.Keys == s.producers.Keys
                  && t.producers[p] == s.producers[p].(active := false)
                  && forall q :: q in s.producers && q != p ==> t.producers[q] == s.producers[q])
  {
  }

  /**
   Once the chain is live, a block counts for its producer, starts inflation if it is the first, and, if more than
   120 slots of half a second have passed, leads to an election; a smaller schedule is not proposed.
   */
  lemma BlockCounts(c: Chain, slot: nat, producer: Name, accepted: bool)
    ensures Step(c, ActOnBlock(producer, slot, accepted)).Ok?
    ensures var d := Step(c, ActOnBlock(producer, slot, accepted)).value;
            && (c.v.activatedStake < 1_500_000_000_000 ==> d == c)
            && (c.v.activatedStake >= 1_500_000_000_000 ==>
                  && d.v == c.v.(producers := d.v.producers) && d.v.producers.Keys == c.v.producers.Keys
                  && (forall p :: p in c.v.producers ==>
                        var r := c.v.producers[p];
                        d.v.producers[p] == r.(unpaid := r.unpaid + (if p == producer then 1 else 0)))
                  && d.pay.unpaid == c.pay.unpaid + (if producer in c.v.producers then 1 else 0)
                  && d.pay.lastFill == (if c.pay.lastFill == 0 then c.v.now else c.pay.lastFill)
                  && d.pay == c.pay.(unpaid := d.pay.unpaid, lastFill := d.pay.lastFill,
                                     lastSchedule := d.pay.lastSchedule, scheduleSize := d.pay.scheduleSize)
                  && (if (slot - c.pay.lastSchedule) % 4_294_967_296 > 120 then
                        && d.pay.lastSchedule == slot
                        && var size := |Elected(d.v.producers)|;
                           d.pay.scheduleSize == if accepted && size >= c.pay.scheduleSize then size else c.pay.scheduleSize
                      else d.pay.lastSchedule == c.pay.lastSchedule && d.pay.scheduleSize == c.pay.scheduleSize))
  {
    hide Elected;
  }

  /** The pay rules are revised once. Time only moves forward. */
  lemma ClockAndRevision(c: Chain, revision: nat, now: int, factor: real)
    ensures Step(c, ActUpdateRevision(revision)).Ok? <==> c.pay.revision == 0 && revision == 1
    ensures c.pay.revision == 0 ==> Step(c, ActUpdateRevision(1)) == Ok(c.(pay := c.pay.(revision := 1)))
    ensures Step(c, ActTime(now, factor)).Ok? <==> now >= c.v.now && factor >= 0.0
    ensures Step(c, ActTime(now, factor)).Ok? ==>
              Step(c, ActTime(now, factor)) == Ok(c.(v := c.v.(now := now, factor := factor)))
  {
  }
}
