/** What every run of voting, election and pay actions keeps. */
module GovernanceRuns {
  import opened Basics
  import opened Ledger
  import opened Voting
  import opened VotePay
  import opened ProxyGraph
  import opened VoteTallies
  import opened VoteBallots
  import opened VoteActions
  import opened VoteWeights
  import opened VoteBlocks
  import opened Governance
  import SortedIndex
  import Sums
  import RealSums

  // ---------------------------------------------------------------------------------------------
  // The election.

  lemma {:induction false} CutStops(producers: map<Name, Producer>, walk: seq<Name>, from: nat)
    requires from <= |walk| && from <= 21
    requires forall p :: p in walk ==> p in producers
    ensures var k := Cut(producers, walk, from);
            && (forall i :: from <= i < k ==> walk[i] in producers && Electable(producers[walk[i]]))
            && (k < |walk| && k < 21 ==> walk[k] in producers && !Electable(producers[walk[k]]))
    decreases |walk| - from
  {
    if from < |walk| {
      assert walk[from] in walk;
      if from < 21 && Electable(producers[walk[from]]) {
        CutStops(producers, walk, from + 1);
      }
    }
  }

  ghost predicate NoRepeats(names: seq<Name>) {
    forall i, j :: 0 <= i < j < |names| ==> names[i] != names[j]
  }

  /** Two sequences without repetitions of the same names are equally long. */
  lemma {:induction false} SameNamesSameLength(a: seq<Name>, b: seq<Name>)
    requires NoRepeats(a) && NoRepeats(b)
    requires forall p :: p in a <==> p in b
    ensures |a| == |b|
    decreases |a|
  {
    if a == [] {
      SortedIndex.SomeName(b);
    } else {
      var p := a[|a| - 1];
      assert p in b;
      var j :| 0 <= j < |b| && b[j] == p;
      var rest := b[..j] + b[j + 1..];
      forall q
        ensures q in a[..|a| - 1] <==> q in rest
      {
        if q in a[..|a| - 1] {
          assert q in b && q != p;
          var i :| 0 <= i < |b| && b[i] == q;
          assert rest[if i < j then i else i - 1] == q;
        }
        if q in rest {
          var i :| 0 <= i < |rest| && rest[i] == q;
          assert b[if i < j then i else i + 1] == q;
          assert q in a && q != p;
        }
      }
      SameNamesSameLength(a[..|a| - 1], rest);
    }
  }

  /** A producer that would have to be elected before another. */
  ghost predicate OutVotes(producers: map<Name, Producer>, p: Name, q: Name)
    requires p in producers && q in producers
  {
    producers[p].votes > producers[q].votes || (producers[p].votes == producers[q].votes && p < q)
  }

  /** An inactive producer whose negative votes place it before an active one in the index. */
  ghost predicate Blocks(producers: map<Name, Producer>, r: Name, q: Name)
    requires r in producers && q in producers
  {
    && !producers[r].active
    && (producers[r].votes < -producers[q].votes || (producers[r].votes == -producers[q].votes && r < q))
  }

  /** Among an electable producer and one that is not, the index has the second first exactly if it blocks the first. */
  lemma BlocksIff(producers: map<Name, Producer>, r: Name, q: Name)
    requires r in producers && q in producers && !Electable(producers[r]) && Electable(producers[q])
    ensures SortedIndex.Before(VoteKeys(producers), r, q) <==> Blocks(producers, r, q)
  {
  }

  /** Among electable producers, the index has one first exactly if it out-votes the other. */
  lemma OutVotesIff(producers: map<Name, Producer>, p: Name, q: Name)
    requires p in producers && q in producers && Electable(producers[p]) && Electable(producers[q])
    ensures SortedIndex.Before(VoteKeys(producers), p, q) <==> OutVotes(producers, p, q)
  {
  }

  /** Sorting the elected producers by name loses none. */
  lemma ElectedLength(producers: map<Name, Producer>)
    ensures var walk := SortedIndex.Walk(VoteKeys(producers));
            (forall p :: p in walk ==> p in producers)
            && (forall p :: p in Elected(producers) <==> p in walk[..Cut(producers, walk, 0)])
            && |Elected(producers)| == Cut(producers, walk, 0)
  {
    var keys := VoteKeys(producers);
    SortedIndex.WalkIsIndex(keys);
    var walk := SortedIndex.Walk(keys);
    var k := Cut(producers, walk, 0);
    var e := Elected(producers);
    WalkNoRepeats(keys, walk, k);
    assert forall p :: p in e <==> p in walk[..k];
    hide VoteKeys, SortedIndex.Walk, Cut;
    SameNamesSameLength(e, walk[..k]);
  }

  lemma WalkNoRepeats(keys: map<Name, real>, walk: seq<Name>, k: nat)
    requires SortedIndex.InOrder(keys, walk) && k <= |walk|
    ensures NoRepeats(walk[..k])
  {
    assert forall i, j :: 0 <= i < j < |walk| ==> SortedIndex.Before(keys, walk[i], walk[j]);
  }

  /**
   The early-stopping walk elects the top, by name: an active producer with votes is elected exactly if
   neither all of a full 21 out-vote it, nor an inactive producer with negative votes comes before it.
   Nobody else is elected.
   */
  lemma ElectedIff(producers: map<Name, Producer>)
    ensures var e := Elected(producers);
            && Ascending(e) && |e| <= 21
            && (forall p :: p in e ==> p in producers && Electable(producers[p]))
            && (forall q :: q in producers && Electable(producers[q]) ==>
                  (q in e <==> && !(|e| == 21 && forall p :: p in e ==> OutVotes(producers, p, q))
                               && !exists r :: r in producers && Blocks(producers, r, q)))
  {
    hide Cut, SortedIndex.Walk, Elected, Blocks, OutVotes, Electable, VoteKeys;
    ElectedAscend(producers);
    ElectedSound(producers);
    var e := Elected(producers);
    forall q | q in producers && Electable(producers[q])
      ensures q in e <==> && !(|e| == 21 && forall p :: p in e ==> OutVotes(producers, p, q))
                          && !exists r :: r in producers && Blocks(producers, r, q)
    {
      ElectedOneIff(producers, q);
    }
  }

  lemma ElectedSound(producers: map<Name, Producer>)
    ensures var e := Elected(producers);
            |e| <= 21 && forall p :: p in e ==> p in producers && Electable(producers[p])
  {
    hide Cut, SortedIndex.Walk, Elected, Electable, VoteKeys;
    ElectedLength(producers);
    var walk := SortedIndex.Walk(VoteKeys(producers));
    CutStops(producers, walk, 0);
    PrefixNames(walk, Cut(producers, walk, 0));
  }

  lemma ElectedOneIff(producers: map<Name, Producer>, q: Name)
    requires q in producers && Electable(producers[q])
    ensures forall p :: p in Elected(producers) ==> p in producers
    ensures q in Elected(producers) <==>
      && !(|Elected(producers)| == 21 && forall p :: p in Elected(producers) ==> OutVotes(producers, p, q))
      && !exists r :: r in producers && Blocks(producers, r, q)
  {
    hide Cut, SortedIndex.Walk, Elected, Blocks, Electable, VoteKeys;
    ElectedLength(producers);
    IndexKeys(producers);
    var walk := SortedIndex.Walk(VoteKeys(producers));
    var k := Cut(producers, walk, 0);
    CutStops(producers, walk, 0);
    PrefixNames(walk, k);
    if q in walk[..k] {
      assert !OutVotes(producers, q, q);
      NotBlocked(producers, walk, k, q);
    } else {
      NotElected(producers, walk, k, q);
    }
  }

  lemma IndexKeys(producers: map<Name, Producer>)
    ensures SortedIndex.InOrder(VoteKeys(producers), SortedIndex.Walk(VoteKeys(producers)))
    ensures forall p :: p in SortedIndex.Walk(VoteKeys(producers)) <==> p in producers
  {
    hide SortedIndex.Walk;
    SortedIndex.WalkIsIndex(VoteKeys(producers));
  }

  lemma ElectedAscend(producers: map<Name, Producer>)
    ensures Ascending(Elected(producers))
  {
    hide SortedIndex.Walk, Cut;
    SortedIndex.WalkIsIndex(VoteKeys(producers));
  }

  /** An electable producer that the walk does not reach. */
  lemma NotElected(producers: map<Name, Producer>, walk: seq<Name>, k: nat, q: Name)
    requires SortedIndex.InOrder(VoteKeys(producers), walk) && k <= |walk| && k <= 21
    requires k < |walk| && k < 21 ==> walk[k] in producers && !Electable(producers[walk[k]])
    requires forall i :: 0 <= i < k ==> walk[i] in producers && Electable(producers[walk[i]])
    requires q in walk && q !in walk[..k] && q in producers && Electable(producers[q])
    requires forall p :: p in walk[..k] ==> exists i :: 0 <= i < k && walk[i] == p
    ensures (k == 21 && forall p :: p in walk[..k] ==> p in producers && OutVotes(producers, p, q))
            || exists r :: r in producers && Blocks(producers, r, q)
  {
    hide VoteKeys, Blocks, OutVotes;
    var keys := VoteKeys(producers);
    var j :| 0 <= j < |walk| && walk[j] == q;
    PrefixNames(walk, k);
    if k < 21 {
      assert SortedIndex.Before(keys, walk[k], walk[j]);
      BlocksIff(producers, walk[k], q);
    }
    forall p | p in walk[..k]
      ensures p in producers && OutVotes(producers, p, q)
    {
      var i :| 0 <= i < k && walk[i] == p;
      assert SortedIndex.Before(keys, walk[i], walk[j]);
      OutVotesIff(producers, p, q);
    }
  }

  /** Nobody the walk reaches is blocked. */
  lemma NotBlocked(producers: map<Name, Producer>, walk: seq<Name>, k: nat, q: Name)
    requires SortedIndex.InOrder(VoteKeys(producers), walk) && k <= |walk| && forall r :: r in producers ==> r in walk
    requires forall i :: 0 <= i < k ==> walk[i] in producers && Electable(producers[walk[i]])
    requires q in walk[..k]
    ensures q in producers && forall r :: r in producers ==> !Blocks(producers, r, q)
  {
    hide VoteKeys, Blocks;
    PrefixNames(walk, k);
    var i :| 0 <= i < k && walk[i] == q;
    forall r | r in producers
      ensures !Blocks(producers, r, q)
    {
      var j :| 0 <= j < |walk| && walk[j] == r;
      if Electable(producers[r]) {
        ActiveBlocksNone(producers, r, q);
      } else {
        BlocksIff(producers, r, q);
        assert i < j;
        assert SortedIndex.Before(VoteKeys(producers), q, r);
      }
    }
  }

  lemma ActiveBlocksNone(producers: map<Name, Producer>, r: Name, q: Name)
    requires r in producers && q in producers && producers[r].active
    ensures !Blocks(producers, r, q)
  {
  }

  /** On a chain whose tallies are exact, no producer has negative votes, and the elected are the top. */
  lemma ElectedAreTopWhenExact(c: Chain)
    requires Healthy(c) && !c.v.inexact
    ensures var e := Elected(c.v.producers);
            && Ascending(e) && |e| <= 21
            && (forall p :: p in e ==> p in c.v.producers && Electable(c.v.producers[p]))
            && (forall q :: q in c.v.producers && Electable(c.v.producers[q]) ==>
                  (q in e <==> !(|e| == 21 && forall p :: p in e ==> OutVotes(c.v.producers, p, q))))
  {
    hide Elected, Graph, RealSums.Sum;
    ElectedIff(c.v.producers);
    assert forall p :: p in c.v.producers ==> RowFormed(c.v.producers[p], c.v.now);
  }

  lemma PrefixNames(walk: seq<Name>, k: nat)
    requires k <= |walk|
    ensures forall i :: 0 <= i < k ==> walk[i] in walk[..k]
    ensures forall p :: p in walk[..k] ==> exists i :: 0 <= i < k && walk[i] == p
  {
    assert forall i :: 0 <= i < k ==> walk[i] == walk[..k][i];
  }

  // ---------------------------------------------------------------------------------------------
  // The pay buckets.

  function Unpaid(p: Name, r: Producer): int {
    r.unpaid
  }

  /** Unpaid blocks add up, and each bucket is backed by its account. */
  ghost predicate Backed(c: Chain) {
    && c.v.now > 0
    && Sums.Sum(c.v.producers, Unpaid) == c.pay.unpaid
    && 0 <= c.pay.perBlock == At(c.pay.tokens, BPAY_ACCOUNT)
    && 0 <= c.pay.perVote == At(c.pay.tokens, VPAY_ACCOUNT)
    && 0 <= At(c.pay.tokens, SYSTEM)
    // The pay accounts are not producers, which would be paid from one bucket into the other.
    && BPAY_ACCOUNT !in c.v.producers && VPAY_ACCOUNT !in c.v.producers
  }

  /** Nothing that pay depends on changes. */
  ghost predicate SamePay(s: State, t: State) {
    && t.now == s.now && t.producers.Keys == s.producers.Keys
    && (forall p :: p in s.producers ==> t.producers[p].unpaid == s.producers[p].unpaid)
  }

  lemma SamePayKeepsBacked(c: Chain, t: State)
    requires Backed(c) && SamePay(c.v, t)
    ensures Backed(c.(v := t))
  {
    Sums.SumAlike(c.v.producers, Unpaid, t.producers, Unpaid);
  }

  lemma UpdateVotesSparesPay(s: State, v: Name, proxy: Option<Name>, producers: seq<Name>, voting: bool)
    requires Graph(s)
    requires !voting ==> v in s.voters && proxy == s.voters[v].proxy && producers == s.voters[v].producers
    ensures var r := UpdateVotes(s, v, proxy, producers, voting); r.Ok? ==> SamePay(s, r.value)
  {
    hide Propagate, MoveVotes, Recast, Registered, VoteWeight, MoveProxied, Acyclic;
    assert !voting ==> BallotFormed(v, s.voters[v]);
    if UpdateVotes(s, v, proxy, producers, voting).Ok? {
      var r := s.voters[v];
      var weight := VoteWeight(s, r);
      var s0 := Activate(s, r);
      MoveProxiedEnds(s0, v, proxy, weight, voting);
      var c := MoveProxied(s0, v, proxy, weight, voting).value;
      assert SameBallots(s0, c, {v});
      RecastEnds(c, v, weight, proxy, producers, voting);
    }
  }

  /** The inflation split: all that is issued is handed on, a fifth of it to producers. */
  lemma RefillSplits(pay: Pay, now: int)
    requires Refill(pay, now).Ok?
    ensures var after := Refill(pay, now).value;
            var issued := after.supply - pay.supply;
            && At(after.tokens, SYSTEM) == At(pay.tokens, SYSTEM)
            && after.perVote - pay.perVote == At(after.tokens, VPAY_ACCOUNT) - At(pay.tokens, VPAY_ACCOUNT) >= 0
            && after.perBlock - pay.perBlock == At(after.tokens, BPAY_ACCOUNT) - At(pay.tokens, BPAY_ACCOUNT) >= 0
            && (after.perVote - pay.perVote) + (after.perBlock - pay.perBlock) == issued / 5
            && At(after.tokens, SAVING_ACCOUNT) - At(pay.tokens, SAVING_ACCOUNT) == issued - issued / 5
            && after.unpaid == pay.unpaid && after.revision == pay.revision
            && after.scheduleSize == pay.scheduleSize
  {
  }

  predicate RefillDue(pay: Pay, now: int) {
    now > pay.lastFill > 0
  }

  function ToProducers(pay: Pay, now: int): int {
    NewTokens(pay.supply, now - pay.lastFill) / 5
  }

  /** The bucket paid out by votes, once refilled. */
  function FilledPerVote(pay: Pay, now: int): int {
    if RefillDue(pay, now) then pay.perVote + ToProducers(pay, now) - ToProducers(pay, now) / 4 else pay.perVote
  }

  /** A refill fails exactly if less than a whole token is due by blocks, and never on a check of the contract's own. */
  lemma RefillIff(pay: Pay, now: int)
    requires At(pay.tokens, SYSTEM) >= 0
    ensures Refill(pay, now) != Err(Broken) && Refill(pay, now) != Err(Endless)
    ensures Refill(pay, now).Ok? <==> (RefillDue(pay, now) ==> ToProducers(pay, now) / 4 > 0)
    ensures Refill(pay, now).Ok? ==> Refill(pay, now).value.perVote == FilledPerVote(pay, now)
  {
    hide NewTokens;
  }

  lemma BlockPayWithinBucket(c: Chain, p: Name, pay: Pay)
    requires Sums.Sum(c.v.producers, Unpaid) == pay.unpaid && pay.perBlock >= 0 && p in c.v.producers
    ensures c.v.producers[p].unpaid <= pay.unpaid
    ensures 0 <= BlockPay(pay, c.v.producers[p]) <= pay.perBlock
  {
    Sums.SumBounds(c.v.producers, Unpaid);
    assert Unpaid(p, c.v.producers[p]) == c.v.producers[p].unpaid;
    if pay.unpaid > 0 {
      ShareWithin(pay.perBlock, c.v.producers[p].unpaid, pay.unpaid);
    }
  }

  lemma ShareWithin(bucket: nat, part: nat, whole: nat)
    requires whole > 0 && part <= whole
    ensures 0 <= bucket * part / whole <= bucket
  {
    assert bucket * part <= bucket * whole;
    assert bucket * part >= 0;
  }

  lemma RealShareWithin(bucket: real, part: real, whole: real)
    requires bucket >= 0.0 && whole > 0.0 && part <= whole
    ensures bucket * part / whole <= bucket
  {
    assert bucket * part <= bucket * whole;
    assert bucket * whole / whole == bucket;
  }

  /** Pay by votes never exceeds its bucket: by shares it is capped, by votes the tallies see to it. */
  lemma VotePayWithinBucket(pay: Pay, s: State, r: Producer, share: real, now: int)
    requires pay.perVote >= 0 && (pay.revision > 0 || r.votes <= s.totalWeight)
    ensures 0 <= VotePayment(pay, s, r, share, now) <= pay.perVote
  {
    if pay.revision == 0 && s.totalWeight > 0.0 {
      RealShareWithin(pay.perVote as real, r.votes, s.totalWeight);
    }
  }

  // ---------------------------------------------------------------------------------------------
  // Claiming.

  /** The voting tables after a claim, the global accumulators still to be corrected. */
  ghost function ClaimShift(s: State, p: Name): Shift
    requires p in s.producers
  {
    var r := s.producers[p];
    Shift(s.(producers := s.producers[p := ClaimedRow(r, s.now).(lastClaim := s.now, unpaid := 0)]),
          ClaimedShare(r, s.now), if Counted(r) then 0.0 else r.votes)
  }

  lemma ClaimShiftKeeps(s: State, p: Name)
    requires InAgreement(s) && p in s.producers && s.now > 0
    ensures Accrual(ClaimShift(s, p))
  {
    hide Growth;
    var r := s.producers[p];
    var row := ClaimedRow(r, s.now).(lastClaim := s.now, unpaid := 0);
    RealSums.SumPut(s.producers, VotesOf, p, row);
    RealSums.SumPut(s.producers, CountedVotes, p, row);
    RealSums.SumPut(s.producers, CountedBase, p, row);
    ShiftRow(r, 0.0, s.now);
    GrowthZero(s.now);
    GrowthZero(s.now - r.updated);
  }

  /** Integrating first and correcting later is the same as doing both at once. */
  lemma TwoUpdates(s: State, extra: real, rateDelta: real)
    requires s.rate >= 0.0 && s.shareTime <= s.now
    requires s.totalShare + Growth(s.rate, s.now - s.shareTime) + extra >= 0.0
    ensures UpdateTotalShare(UpdateTotalShare(s, 0.0, 0.0), extra, rateDelta).totalShare
         == s.totalShare + Growth(s.rate, s.now - s.shareTime) + extra
    ensures UpdateTotalShare(s, extra, rateDelta).totalShare
         == s.totalShare + Growth(s.rate, s.now - s.shareTime) + extra
    ensures UpdateTotalShare(UpdateTotalShare(s, 0.0, 0.0), extra, rateDelta)
         == UpdateTotalShare(s, extra, rateDelta)
  {
    hide Growth;
    GrowthNonNegative(s.rate, s.now - s.shareTime);
    GrowthBetween(s.rate, s.now, s.now);
  }

  /** What a claimant has accrued is part of the global share, so nobody is paid more than there is. */
  lemma ClaimantWithinTotal(s: State, p: Name)
    requires InAgreement(s) && p in s.producers
    ensures s.rate >= 0.0
    ensures s.totalShare + Growth(s.rate, s.now - s.shareTime) == RealSums.Sum(s.producers, ShareAt(s.now))
    ensures 0.0 <= ClaimedShare(s.producers[p], s.now) <= RealSums.Sum(s.producers, ShareAt(s.now))
  {
    hide Growth;
    var r := s.producers[p];
    GlobalShareIsSum(s, s.now);
    SharesNonNegative(s.producers, s.now);
    ShiftRow(r, 0.0, s.now);
    assert ShareAt(s.now)(p, r) <= RealSums.Sum(s.producers, ShareAt(s.now));
    GrowthZero(s.now - r.updated);
  }

  /** The accumulators after a claim. */
  lemma ClaimKeepsAgreement(s: State, p: Name, revised: bool)
    requires InAgreement(s) && p in s.producers && s.now > 0
    ensures InAgreement(AfterClaim(s, p, revised))
  {
    hide Growth, InAgreement, Accrual, RealSums.Sum;
    var f := ClaimShift(s, p);
    ClaimShiftKeeps(s, p);
    UpdateTotalKeeps(f);
    ClaimantWithinTotal(s, p);
    AgreementTimes(s);
    TwoUpdates(s, -f.inactive, f.rate);
    assert AfterClaim(s, p, revised) == UpdateTotalShare(f.s, -f.inactive, f.rate);
  }

  /** Since the first revision, the share a claim is valued against is what all producers have accrued. */
  lemma ClaimIsAFairPart(s: State, p: Name)
    requires InAgreement(s) && p in s.producers
    ensures AtClaim(s, p, true).totalShare == RealSums.Sum(s.producers, ShareAt(s.now))
    ensures 0.0 <= ClaimedShare(s.producers[p], s.now) <= AtClaim(s, p, true).totalShare
  {
    hide Growth, InAgreement, Accrual, RealSums.Sum;
    ClaimantWithinTotal(s, p);
    AgreementTimes(s);
    GrowthNonNegative(s.rate, s.now - s.shareTime);
    GrowthBetween(s.rate, s.now, s.now);
  }

  lemma AgreementTimes(s: State)
    requires InAgreement(s)
    ensures s.shareTime <= s.now
  {
  }

  /** The state of the chain: tables sound, pay backed. */
  ghost predicate Healthy(c: Chain) {
    Sound(c.v) && Backed(c)
  }

  /** A producer that may claim now. */
  predicate MayClaim(c: Chain, p: Name) {
    && p in c.v.producers && c.v.producers[p].active
    && c.v.activatedStake >= MIN_ACTIVATED_STAKE && c.v.now - c.v.producers[p].lastClaim > ONE_DAY
    && (RefillDue(c.pay, c.v.now) ==> ToProducers(c.pay, c.v.now) / 4 > 0)
  }

  /**
   A claim worth more than the bucket it is paid from. It takes a producer's present votes, by which pay is
   valued before the first revision, to exceed the total of all votes.
   */
  predicate ClaimShort(c: Chain, p: Name) {
    && MayClaim(c, p) && c.pay.revision == 0 && c.v.totalWeight > 0.0
    && var bucket := FilledPerVote(c.pay, c.v.now);
       var due := PartOf(bucket, c.v.producers[p].votes, c.v.totalWeight);
       due > bucket && due >= MIN_DAILY_PAY
  }

  /** What a claim on a healthy chain must come to. */
  ghost predicate ClaimKept(c: Chain, p: Name, r: Result<Chain>) {
    && r != Err(Endless)
    && (r == Err(Broken) <==> ClaimShort(c, p))
    && (r.Ok? ==> Healthy(r.value))
  }

  lemma AfterClaimSound(s: State, p: Name, revised: bool)
    requires Sound(s) && p in s.producers && s.now > 0
    ensures Sound(AfterClaim(s, p, revised))
  {
    hide InAgreement, RealSums.Sum;
    var t := AfterClaim(s, p, revised);
    assert t.voters == s.voters && t.factor == s.factor && t.producers.Keys == s.producers.Keys && t.inexact == s.inexact;
    if !s.inexact {
      ClaimKeepsAgreement(s, p, revised);
    }
  }

  /** A producer's votes are part of the total. */
  lemma VotesWithinTotal(s: State, p: Name)
    requires InAgreement(s) && p in s.producers
    ensures s.producers[p].votes <= s.totalWeight
  {
    RealSums.SumBounds(s.producers, VotesOf);
    assert VotesOf(p, s.producers[p]) == s.producers[p].votes;
  }

  /** A claim's payments can be made from the buckets, and leave them backed. */
  lemma PaymentsBacked(pay: Pay, p: Name, unpaid: nat, blockPay: int, votePay: int)
    requires 0 <= pay.perBlock == At(pay.tokens, BPAY_ACCOUNT) && 0 <= pay.perVote == At(pay.tokens, VPAY_ACCOUNT)
    requires 0 <= At(pay.tokens, SYSTEM) && p != BPAY_ACCOUNT && p != VPAY_ACCOUNT
    requires 0 <= blockPay <= pay.perBlock && 0 <= votePay
    ensures var t1 := PayOut(pay.tokens, BPAY_ACCOUNT, p, blockPay);
            && t1.Ok?
            && var t2 := PayOut(t1.value, VPAY_ACCOUNT, p, votePay);
            && (if votePay > pay.perVote then t2 == Err(Broken) else t2.Ok?)
            && (t2.Ok? ==>
                  && 0 <= pay.perBlock - blockPay == At(t2.value, BPAY_ACCOUNT)
                  && 0 <= pay.perVote - votePay == At(t2.value, VPAY_ACCOUNT)
                  && 0 <= At(t2.value, SYSTEM))
  {
  }

  lemma ClaimRewardsKept(c: Chain, p: Name)
    requires Healthy(c)
    ensures ClaimKept(c, p, ClaimRewards(c, p))
    ensures ClaimShort(c, p) ==> c.v.inexact && c.v.producers[p].votes > c.v.totalWeight
  {
    hide Sound, Refill, BlockPay, VotePayment, PayOut, AfterClaim, ClaimVotePay, InAgreement, PartOf, NewTokens;
    if p in c.v.producers {
      var r := c.v.producers[p];
      RefillIff(c.pay, c.v.now);
      ShortOnlyInexact(c, p);
      if Refill(c.pay, c.v.now).Ok? {
        RefillSplits(c.pay, c.v.now);
        var pay := Refill(c.pay, c.v.now).value;
        BlockPayWithinBucket(c, p, pay);
        AfterClaimSound(c.v, p, pay.revision > 0);
        ClaimPaid(c, p, pay);
        ClaimVotePayShort(c.v, pay, p);
      }
    }
  }

  lemma ShortOnlyInexact(c: Chain, p: Name)
    requires Healthy(c)
    ensures ClaimShort(c, p) ==> c.v.inexact && c.v.producers[p].votes > c.v.totalWeight
  {
    hide Graph, RealSums.Sum, NewTokens, FilledPerVote, InAgreement, PartOf;
    if ClaimShort(c, p) {
      FilledNonNegative(c, p);
      PartWithin(FilledPerVote(c.pay, c.v.now), c.v.producers[p].votes, c.v.totalWeight);
      if !c.v.inexact {
        VotesWithinTotal(c.v, p);
      }
    }
  }

  lemma PartWithin(bucket: int, part: real, whole: real)
    requires bucket >= 0 && whole > 0.0
    ensures part <= whole ==> PartOf(bucket, part, whole) <= bucket
  {
    if part <= whole {
      RealShareWithin(bucket as real, part, whole);
    }
  }

  lemma FilledNonNegative(c: Chain, p: Name)
    requires Healthy(c) && MayClaim(c, p)
    ensures FilledPerVote(c.pay, c.v.now) >= 0
  {
    hide Sound, NewTokens;
  }

  lemma ClaimPaid(c: Chain, p: Name, pay: Pay)
    requires Healthy(c) && p in c.v.producers
    requires pay.unpaid == c.pay.unpaid && pay.revision == c.pay.revision
    requires 0 <= pay.perBlock == At(pay.tokens, BPAY_ACCOUNT) && 0 <= pay.perVote == At(pay.tokens, VPAY_ACCOUNT)
    requires 0 <= At(pay.tokens, SYSTEM)
    ensures var r := c.v.producers[p];
            var votePay := ClaimVotePay(c.v, pay, p);
            && r.unpaid <= pay.unpaid
            && var t1 := PayOut(pay.tokens, BPAY_ACCOUNT, p, BlockPay(pay, r));
            && t1.Ok?
            && var t2 := PayOut(t1.value, VPAY_ACCOUNT, p, votePay);
            && (if votePay > pay.perVote then t2 == Err(Broken) else t2.Ok?)
            && (t2.Ok? ==>
                 Backed(Chain(AfterClaim(c.v, p, pay.revision > 0),
                              pay.(perVote := pay.perVote - votePay, perBlock := pay.perBlock - BlockPay(pay, r),
                                   unpaid := pay.unpaid - r.unpaid, tokens := t2.value))))
  {
    var r := c.v.producers[p];
    BlockPayWithinBucket(c, p, pay);
    var votePay := ClaimVotePay(c.v, pay, p);
    VotePayNonNegative(c.v, pay, p);
    PaymentsBacked(pay, p, r.unpaid, BlockPay(pay, r), votePay);
    var t := AfterClaim(c.v, p, pay.revision > 0);
    Sums.SumPut(c.v.producers, Unpaid, p, t.producers[p]);
  }

  lemma VotePayNonNegative(s: State, pay: Pay, p: Name)
    requires p in s.producers && pay.perVote >= 0
    ensures 0 <= ClaimVotePay(s, pay, p)
  {
    var r := s.producers[p];
    var t := AtClaim(s, p, pay.revision > 0);
    if pay.revision > 0 || r.votes <= t.totalWeight {
      VotePayWithinBucket(pay, t, r, ClaimedShare(r, s.now), s.now);
    }
  }

  /** By shares no claim exceeds the bucket; by votes it may. */
  lemma ClaimVotePayShort(s: State, pay: Pay, p: Name)
    requires p in s.producers && pay.perVote >= 0
    ensures ClaimVotePay(s, pay, p) > pay.perVote
            <==> && pay.revision == 0 && s.totalWeight > 0.0
                 && var due := PartOf(pay.perVote, s.producers[p].votes, s.totalWeight);
                    due > pay.perVote && due >= MIN_DAILY_PAY
  {
    hide PartOf, Growth;
  }

  // ---------------------------------------------------------------------------------------------
  // Every step, and every run.

  lemma OnBlockKept(c: Chain, slot: nat, producer: Name, accepted: bool)
    requires Healthy(c)
    ensures Healthy(OnBlock(c, slot, producer, accepted))
    ensures OnBlock(c, slot, producer, accepted).pay.scheduleSize >= c.pay.scheduleSize
  {
    hide Sound, Elected;
    if producer in c.v.producers {
      var r := c.v.producers[producer];
      var row := r.(unpaid := r.unpaid + 1);
      ProducerRowKeepsSound(c.v, producer, row);
      Sums.SumPut(c.v.producers, Unpaid, producer, row);
    }
  }

  lemma RegProducerKept(c: Chain, p: Name)
    requires Healthy(c) && p != BPAY_ACCOUNT && p != VPAY_ACCOUNT
    ensures Healthy(c.(v := RegProducer(c.v, p)))
  {
    hide Elected, RealSums.Sum;
    var t := RegProducer(c.v, p);
    Sums.SumPut(c.v.producers, Unpaid, p, t.producers[p]);
    if p !in c.v.producers {
      NewProducerKeepsSound(c.v, p);
    } else if !c.v.inexact {
      assert RowFormed(c.v.producers[p], c.v.now);
      ProducerRowKeepsSound(c.v, p, t.producers[p]);
    }
  }

  /** Actions are taken by accounts other than the pay accounts, which only hold the buckets. */
  predicate Legal(a: Action) {
    a.ActRegProducer? ==> a.producer != BPAY_ACCOUNT && a.producer != VPAY_ACCOUNT
  }

  lemma VoteProducerBacked(
    c: Chain, v: Name, proxy: Option<Name>, producers: seq<Name>, rexDelta: int, holdsRex: bool)
    requires Healthy(c)
    ensures var r := VoteProducer(c.v, v, proxy, producers, rexDelta, holdsRex); r.Ok? ==> Backed(c.(v := r.value))
  {
    hide UpdateVotes, Acyclic, Exact;
    var r := VoteProducer(c.v, v, proxy, producers, rexDelta, holdsRex);
    if r.Ok? {
      if v in c.v.voters {
        var row := c.v.voters[v].(staked := c.v.voters[v].staked + rexDelta);
        assert BallotFormed(v, c.v.voters[v]);
        ReballotKeepsSameProxy(c.v.voters, v, row);
        UpdateVotesSparesPay(c.v.(voters := c.v.voters[v := row]), v, proxy, producers, true);
      } else {
        UpdateVotesSparesPay(c.v, v, proxy, producers, true);
      }
      SamePayKeepsBacked(c, r.value);
    }
  }

  lemma ChangeStakeBacked(c: Chain, v: Name, delta: int)
    requires Healthy(c)
    ensures var r := ChangeStake(c.v, v, delta); r.Ok? ==> Backed(c.(v := r.value))
  {
    hide UpdateVotes, Acyclic, Exact;
    var r := ChangeStake(c.v, v, delta);
    if r.Ok? {
      if v in c.v.voters {
        var row := c.v.voters[v].(staked := c.v.voters[v].staked + delta);
        assert BallotFormed(v, c.v.voters[v]);
        ReballotKeepsSameProxy(c.v.voters, v, row);
        UpdateVotesSparesPay(c.v.(voters := c.v.voters[v := row]), v, row.proxy, row.producers, false);
      }
      SamePayKeepsBacked(c, r.value);
    }
  }

  lemma RegProxyBacked(c: Chain, v: Name, isProxy: bool)
    requires Healthy(c)
    ensures var r := RegProxy(c.v, v, isProxy); r.Ok? ==> Backed(c.(v := r.value))
  {
    hide Propagate, Exact;
    var r := RegProxy(c.v, v, isProxy);
    if r.Ok? {
      if v in c.v.voters {
        var row := c.v.voters[v].(isProxy := isProxy);
        var t := c.v.(voters := c.v.voters[v := row]);
        assert BallotFormed(v, c.v.voters[v]);
        ReballotKeepsSameProxy(c.v.voters, v, row);
        var rank :| Ranked(t.voters, rank);
        PropagateEnds(t, v, {}, rank);
      }
      SamePayKeepsBacked(c, r.value);
    }
  }

  /** The actions that fail on a check meant for corrupted data. */
  predicate Fails(c: Chain, a: Action) {
    match a
    case ActVoteProducer(voter, proxy, producers, rexDelta, holdsRex) =>
      ProducerVoteBlocked(c.v, voter, proxy, producers, rexDelta)
    case ActChangeStake(voter, delta) => StakeBlocked(c.v, voter, delta)
    case ActRegProxy(voter, isProxy) => ProxyBlocked(c.v, voter, isProxy)
    case ActClaimRewards(producer) => ClaimShort(c, producer)
    case _ => false
  }

  /**
   One step. The recursion over proxies returns; one of the contract's own checks fails exactly if a weight
   change arrives at a ballot of an unregistered producer, a vote for one is refreshed, or a claim exceeds
   its bucket; and the chain stays healthy.
   */
  lemma StepKeepsHealth(c: Chain, a: Action)
    requires Healthy(c) && Legal(a)
    ensures Step(c, a) != Err(Endless)
    ensures Step(c, a) == Err(Broken) <==> Fails(c, a)
    ensures Step(c, a).Ok? ==> Healthy(Step(c, a).value)
  {
    hide Graph, Exact, Registered, ProducerVoteBlocked, StakeBlocked, ProxyBlocked, ClaimShort, UpdateVotes, VoteProducer,
         ChangeStake, RegProxy, RegProducer, ClaimRewards, OnBlock;
    match a
    case ActVoteProducer(voter, proxy, producers, rexDelta, holdsRex) =>
      VoteProducerKept(c.v, voter, proxy, producers, rexDelta, holdsRex);
      VoteProducerBrokenIff(c.v, voter, proxy, producers, rexDelta, holdsRex);
      VoteProducerBacked(c, voter, proxy, producers, rexDelta, holdsRex);
    case ActChangeStake(voter, delta) =>
      ChangeStakeKept(c.v, voter, delta);
      ChangeStakeBrokenIff(c.v, voter, delta);
      ChangeStakeBacked(c, voter, delta);
    case ActRegProxy(voter, isProxy) =>
      RegProxyKept(c.v, voter, isProxy);
      RegProxyBrokenIff(c.v, voter, isProxy);
      RegProxyBacked(c, voter, isProxy);
    case ActRegProducer(producer) =>
      RegProducerKept(c, producer);
    case ActDeactivate(producer) =>
      if producer in c.v.producers {
        ProducerRowKeepsSound(c.v, producer, c.v.producers[producer].(active := false));
        SamePayKeepsBacked(c, Deactivate(c.v, producer).value);
      }
    case ActClaimRewards(producer) =>
      ClaimRewardsKept(c, producer);
    case ActOnBlock(producer, slot, accepted) =>
      OnBlockKept(c, slot, producer, accepted);
    case ActUpdateRevision(revision) =>
    case ActTime(now, factor) =>
      if c.v.now <= now && factor >= 0.0 {
        TimeKeepsSound(c.v, now, factor);
      }
  }

  /** While all ballots are of registered producers, only a claim valued by inexact votes does. */
  lemma FailsOnlyWhen(c: Chain, a: Action)
    requires Healthy(c) && Legal(a) && Fails(c, a)
    ensures !Registered(c.v) || (a.ActClaimRewards? && c.pay.revision == 0 && c.v.inexact)
  {
    hide Graph, Exact, Registered, VoteProducer, ChangeStake, RegProxy, ClaimRewards;
    StepKeepsHealth(c, a);
    match a
    case ActVoteProducer(voter, proxy, producers, rexDelta, holdsRex) =>
      VoteProducerKept(c.v, voter, proxy, producers, rexDelta, holdsRex);
    case ActChangeStake(voter, delta) => ChangeStakeKept(c.v, voter, delta);
    case ActRegProxy(voter, isProxy) => RegProxyKept(c.v, voter, isProxy);
    case ActClaimRewards(producer) => ClaimRewardsKept(c, producer);
  }

  /** The one way to store a ballot of producers that are not registered. */
  predicate StoresUnregistered(c: Chain, a: Action) {
    a.ActVoteProducer? && !AllRegistered(c.v.producers, a.producers)
  }

  /** Ballots stay of registered producers exactly if no other is stored, which takes a vote of negative weight. */
  lemma BallotsStayRegisteredIff(c: Chain, a: Action)
    requires Healthy(c) && Legal(a) && Registered(c.v) && Step(c, a).Ok?
    ensures Registered(Step(c, a).value.v) <==> !StoresUnregistered(c, a)
    ensures StoresUnregistered(c, a) ==> a.voter in c.v.voters && RevaluedWeight(c.v, a.voter, a.rexDelta) < 0.0
  {
    hide Graph, Exact, UpdateVotes, VoteProducer, ChangeStake, RegProxy, ClaimRewards, Elected, VoteWeight;
    match a
    case ActVoteProducer(voter, proxy, producers, rexDelta, holdsRex) =>
      VoteRegisteredIff(c.v, voter, proxy, producers, rexDelta, holdsRex);
      if AllRegistered(c.v.producers, producers) {
      } else {
        assert RevaluedWeight(c.v, voter, rexDelta) < 0.0;
      }
    case ActChangeStake(voter, delta) => ChangeStakeRegistered(c.v, voter, delta);
    case ActRegProxy(voter, isProxy) => RegProxyRegistered(c.v, voter, isProxy);
    case ActClaimRewards(producer) => ClaimSparesVoters(c, producer);
    case _ =>
  }

  lemma ClaimSparesVoters(c: Chain, p: Name)
    requires ClaimRewards(c, p).Ok?
    ensures var t := ClaimRewards(c, p).value;
            t.v.voters == c.v.voters && t.v.producers.Keys == c.v.producers.Keys
  {
    hide Refill, BlockPay, ClaimVotePay, PayOut, Growth;
  }

  lemma GenesisHealthy(now: int, factor: real, supply: int, tokens: Tokens)
    requires now > 0 && factor >= 0.0
    requires At(tokens, BPAY_ACCOUNT) == 0 && At(tokens, VPAY_ACCOUNT) == 0 && At(tokens, SYSTEM) >= 0
    ensures Healthy(Genesis(now, factor, supply, tokens))
  {
    var s := Genesis(now, factor, supply, tokens).v;
    assert Ranked(s.voters, map[]);
    GrowthZero(0);
    GrowthZero(now);
  }

  /** From a fresh chain on, any run of actions leaves the chain healthy. */
  lemma {:induction false} RunIsHealthy(now: int, factor: real, supply: int, tokens: Tokens, actions: seq<Action>)
    requires now > 0 && factor >= 0.0
    requires At(tokens, BPAY_ACCOUNT) == 0 && At(tokens, VPAY_ACCOUNT) == 0 && At(tokens, SYSTEM) >= 0
    requires forall a :: a in actions ==> Legal(a)
    ensures Healthy(Run(Genesis(now, factor, supply, tokens), actions))
    decreases |actions|
  {
    hide Healthy, Step;
    if actions == [] {
      GenesisHealthy(now, factor, supply, tokens);
    } else {
      var c := Genesis(now, factor, supply, tokens);
      RunIsHealthy(now, factor, supply, tokens, actions[..|actions| - 1]);
      assert actions[|actions| - 1] in actions;
      StepKeepsHealth(Run(c, actions[..|actions| - 1]), actions[|actions| - 1]);
    }
  }

  /**
   What health means for the tallies and for the payers of producers, spelled out. The votes cast for a
   producer, or through a proxy, are those of its voters' weights that are not negative.
   */
  lemma HealthSpelledOut(c: Chain)
    requires Healthy(c) && !c.v.inexact
    ensures forall p :: p in c.v.producers ==> c.v.producers[p].votes == RealSums.Sum(c.v.voters, Backing(p))
    ensures forall x :: x in c.v.voters ==> c.v.voters[x].proxied == RealSums.Sum(c.v.voters, Through(x))
    ensures c.v.totalWeight == RealSums.Sum(c.v.producers, VotesOf)
    ensures c.v.rate == RealSums.Sum(c.v.producers, CountedVotes)
    ensures forall t :: c.v.totalShare + Growth(c.v.rate, t - c.v.shareTime) == RealSums.Sum(c.v.producers, ShareAt(t))
  {
    hide Growth;
    forall t
      ensures c.v.totalShare + Growth(c.v.rate, t - c.v.shareTime) == RealSums.Sum(c.v.producers, ShareAt(t))
    {
      GlobalShareIsSum(c.v, t);
    }
    GlobalShareIsSum(c.v, 0);
    assert c.v.voters + map[] == c.v.voters;
  }

  /** What health means whatever was distorted: the proxy graph, and the pay. */
  lemma HealthAlways(c: Chain)
    requires Healthy(c)
    ensures Acyclic(c.v.voters)
    ensures forall v :: v in c.v.voters && c.v.voters[v].isProxy ==> c.v.voters[v].proxy.None?
    ensures forall v :: v in c.v.voters ==> ValidBallot(v, c.v.voters[v].proxy, c.v.voters[v].producers)
    ensures Sums.Sum(c.v.producers, Unpaid) == c.pay.unpaid
    ensures At(c.pay.tokens, BPAY_ACCOUNT) == c.pay.perBlock >= 0 && At(c.pay.tokens, VPAY_ACCOUNT) == c.pay.perVote >= 0
  {
    hide Exact, ValidBallot, Acyclic;
    forall v | v in c.v.voters
      ensures BallotFormed(v, c.v.voters[v])
    {
    }
  }

  lemma ClaimKeepsSchedule(c: Chain, p: Name)
    ensures var r := ClaimRewards(c, p); r.Ok? ==> r.value.pay.scheduleSize == c.pay.scheduleSize
  {
    hide Refill, BlockPay, ClaimVotePay, PayOut, AfterClaim;
    if Refill(c.pay, c.v.now).Ok? {
      RefillSplits(c.pay, c.v.now);
    }
  }

  lemma StepKeepsSchedule(c: Chain, a: Action)
    ensures Step(c, a).Ok? ==> Step(c, a).value.pay.scheduleSize >= c.pay.scheduleSize
  {
    hide Elected, VoteProducer, ChangeStake, RegProxy, RegProducer, Deactivate, ClaimRewards;
    match a
    case ActClaimRewards(producer) => ClaimKeepsSchedule(c, producer);
    case _ =>
  }

  /** The accepted schedule never shrinks. */
  lemma {:induction false} ScheduleNeverShrinks(c: Chain, actions: seq<Action>)
    ensures Run(c, actions).pay.scheduleSize >= c.pay.scheduleSize
    decreases |actions|
  {
    hide Step;
    if actions != [] {
      ScheduleNeverShrinks(c, actions[..|actions| - 1]);
      StepKeepsSchedule(Run(c, actions[..|actions| - 1]), actions[|actions| - 1]);
    }
  }
}
