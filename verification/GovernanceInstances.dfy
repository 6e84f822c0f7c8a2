/**
 Runs from a fresh chain in which a negative stake is voted with, or a weight change is not passed on.
 A staked unit is worth what `stake2vote` makes of the time.
 */
module GovernanceInstances {
  import opened Basics
  import opened Ledger
  import opened Voting
  import opened VotePay
  import opened ProxyGraph
  import opened VoteTallies
  import opened VoteBallots
  import opened VoteActions
  import opened VoteWeights
  import opened VoteBlocks
  import opened VoteSteps
  import opened VoteClock
  import opened Governance
  import opened GovernanceRuns
  import opened GovernanceScenes
  import SortedIndex
  import Sums = RealSums

  const ALICE: Name := 20
  const BOB: Name := 21
  const CAROL: Name := 22
  const DAVE: Name := 23

  /** A fresh chain. */
  ghost predicate Opening(c: Chain) {
    && c == Genesis(c.v.now, c.v.factor, c.pay.supply, c.pay.tokens) && IsFactor(c.v.now, c.v.factor)
    && At(c.pay.tokens, BPAY_ACCOUNT) == 0 && At(c.pay.tokens, VPAY_ACCOUNT) == 0 && At(c.pay.tokens, SYSTEM) >= 0
  }

  /** Whatever is done on it, the chain stays healthy. */
  lemma OpeningLeads(c: Chain, actions: seq<Action>)
    requires Opening(c) && forall a :: a in actions ==> Legal(a)
    ensures Healthy(Run(c, actions)) && c.v.factor >= 1.0 && c.v.now > 0
  {
    hide Healthy, Legal, Power, Run;
    FactorAtLeastOne(c.v.now, c.v.factor);
    RunIsHealthy(c.v.now, c.v.factor, c.pay.supply, c.pay.tokens, actions);
  }

  // ---------------------------------------------------------------------------------------------
  // Producers register.

  function Registrations(names: seq<Name>): seq<Action> {
    seq(|names|, i requires 0 <= i < |names| => ActRegProducer(names[i]))
  }

  ghost predicate Fresh(producers: map<Name, Producer>, names: seq<Name>, now: int) {
    && (forall p :: p in producers <==> p in names)
    && (forall p :: p in producers ==> producers[p] == Producer(0.0, true, 0, now, 0.0, now))
  }

  lemma {:induction false} Registering(c: Chain, names: seq<Name>)
    requires c.v.producers == map[] && c.v.now != 0
    ensures var d := Run(c, Registrations(names));
            d == c.(v := c.v.(producers := d.v.producers)) && Fresh(d.v.producers, names, c.v.now)
    decreases |names|
  {
    if names != [] {
      var n := |names| - 1;
      Registering(c, names[..n]);
      assert Registrations(names)[..n] == Registrations(names[..n]);
      assert Registrations(names)[n] == ActRegProducer(names[n]);
      assert forall p :: p in names <==> p in names[..n] || p == names[n];
    }
  }

  function Start(): seq<Action> {
    Registrations(PRODUCERS + [LAST])
  }

  function StartScene(c: Chain): Scene {
    Scene(c.pay, c.v.now, c.v.now, c.v.factor, map[], 0.0, 0.0, 0, false)
  }

  lemma Starting(c: Chain)
    requires Opening(c)
    ensures Shows(Run(c, Start()), StartScene(c))
  {
    hide Run, Power;
    FactorAtLeastOne(c.v.now, c.v.factor);
    Registering(c, PRODUCERS + [LAST]);
    SlateNames(100);
  }

  // ---------------------------------------------------------------------------------------------
  // ALICE becomes a proxy, votes, and loses her stake.

  function Slated(v: Name, rexDelta: int, holdsRex: bool): Action {
    ActVoteProducer(v, None, PRODUCERS, rexDelta, holdsRex)
  }

  function Former(): seq<Action> {
    [ActRegProxy(ALICE, true), ActChangeStake(ALICE, 20), Slated(ALICE, 0, false), ActChangeStake(ALICE, -20)]
  }

  function FormerScene(c: Chain): Scene {
    StartScene(c).(voters := map[ALICE := Voter(None, PRODUCERS, 0, 0.0, 0.0, true)], activated := 20)
  }

  lemma Formerly(c: Chain)
    requires Opening(c)
    ensures Shows(Run(c, Start() + Former()), FormerScene(c))
  {
    hide Run, Step, Power, Shows, Start;
    FactorAtLeastOne(c.v.now, c.v.factor);
    BallotsDiffer(PRODUCERS);
    Starting(c);
    var x := StartScene(c);
    var c0 := Run(c, Start());
    NewAccount(c0, x, ALICE, 0);
    var c1 := Step(c0, ActRegProxy(ALICE, true)).value;
    var x1 := x.(voters := x.voters[ALICE := NewVoter(0, true)]);
    Stakes(c1, x1, ALICE, 20);
    var c2 := Step(c1, ActChangeStake(ALICE, 20)).value;
    var x2 := x.(voters := map[ALICE := NewVoter(20, true)]);
    assert x1.voters[ALICE := NewVoter(20, true)] == x2.voters;
    Votes(c2, x2, ALICE, PRODUCERS, 0, false);
    var c3 := Step(c2, Slated(ALICE, 0, false)).value;
    var f20 := 20.0 * c.v.factor;
    var x3 := x.(voters := map[ALICE := Voter(None, PRODUCERS, 20, f20, 0.0, true)], each := f20, activated := 20);
    assert x2.voters[ALICE := Voter(None, PRODUCERS, 20, f20, 0.0, true)] == x3.voters;
    Refreshes(c3, x3, ALICE, -20);
    var c4 := Step(c3, ActChangeStake(ALICE, -20)).value;
    assert x3.voters[ALICE := Voter(None, PRODUCERS, 0, 0.0, 0.0, true)] == FormerScene(c).voters;
    RunOn(c, Start(), Former(), [c0, c1, c2, c3, c4]);
  }

  lemma FormerLegal(rest: seq<Action>)
    requires forall a :: a in rest ==> Legal(a)
    ensures forall a :: a in Start() + Former() + rest ==> Legal(a)
  {
    var names := PRODUCERS + [LAST];
    forall a | a in Start()
      ensures Legal(a)
    {
      var i :| 0 <= i < |names| && Registrations(names)[i] == a;
      SlateNames(100);
      assert names[i] in names;
    }
  }

  // ---------------------------------------------------------------------------------------------
  // Her REX loses a unit of worth, and she votes.

  /** Her next vote, for a slate of registered producers or of others. */
  function Uncasts(first: Name): Action {
    ActVoteProducer(ALICE, None, Slate(first), -1, true)
  }

  function UncastScene(c: Chain, first: Name): Scene {
    FormerScene(c).(voters := map[ALICE := Voter(None, Slate(first), -1, -c.v.factor, 0.0, true)], activated := 19)
  }

  lemma Uncasting(c: Chain, first: Name)
    requires Opening(c)
    ensures Shows(Run(c, Start() + Former() + [Uncasts(first)]), UncastScene(c, first))
  {
    hide Run, Step, Power, Shows, Start, Former, Slate;
    FactorAtLeastOne(c.v.now, c.v.factor);
    SlateNames(first);
    Formerly(c);
    var before := Start() + Former();
    var c0 := Run(c, before);
    VotesUncast(c0, FormerScene(c), ALICE, Slate(first), -1);
    var c1 := Step(c0, Uncasts(first)).value;
    var row := Voter(None, Slate(first), -1, -c.v.factor, 0.0, true);
    assert FormerScene(c).voters[ALICE := row] == UncastScene(c, first).voters;
    RunOn(c, before, [Uncasts(first)], [c0, c1]);
  }

  /**
   A vote with a negative stake: it is stored with negative weight and cast with none, and from then on the
   votes of its 21 producers are not the sum of their voters' stored weights.
   */
  lemma NegativeVoteIsStored(c: Chain, p: Name)
    requires Opening(c) && p in PRODUCERS
    ensures var t := Run(c, Start() + Former() + [Uncasts(100)]);
            && !t.v.inexact && p in t.v.producers
            && t.v.producers[p].votes == 0.0 && Sums.Sum(t.v.voters, StoredFor(p)) == -c.v.factor
  {
    hide Run, Power, Start, Former, Sums.Sum;
    Uncasting(c, 100);
    SlateNames(100);
    var t := Run(c, Start() + Former() + [Uncasts(100)]);
    OneVoter(t.v.voters, ALICE, t.v.voters[ALICE], StoredFor(p));
  }

  lemma OneVoter(voters: map<Name, Voter>, v: Name, row: Voter, f: (Name, Voter) -> real)
    requires voters == map[v := row]
    ensures Sums.Sum(voters, f) == f(v, row)
  {
    hide Sums.Sum;
    var none: map<Name, Voter> := map[];
    assert voters == none[v := row];
    Sums.SumPut(none, f, v, row);
    Sums.SumZero(none, f);
  }

  lemma TwoVoters(voters: map<Name, Voter>, v: Name, row: Voter, u: Name, other: Voter, f: (Name, Voter) -> real)
    requires v != u && voters == map[v := row, u := other]
    ensures Sums.Sum(voters, f) == f(v, row) + f(u, other)
  {
    hide Sums.Sum;
    var none: map<Name, Voter> := map[];
    var one := none[v := row];
    assert voters == one[u := other];
    Sums.SumPut(none, f, v, row);
    Sums.SumZero(none, f);
    Sums.SumPut(one, f, u, other);
  }

  /**
   Such a vote can name producers that do not exist. When the account then stakes, its refreshed vote
   is worth something, and the action fails on a check meant for corrupted data.
   */
  lemma NegativeVoteBlocks(c: Chain)
    requires Opening(c)
    ensures var t := Run(c, Start() + Former() + [Uncasts(300)]);
            && (forall p :: p in Slate(300) ==> p !in t.v.producers)
            && Step(t, ActChangeStake(ALICE, 1)) == Err(Broken)
  {
    hide Run, Step, Power, Start, Former, Healthy;
    Uncasting(c, 300);
    var t := Run(c, Start() + Former() + [Uncasts(300)]);
    Strangers(t, UncastScene(c, 300));
    FormerLegal([Uncasts(300)]);
    OpeningLeads(c, Start() + Former() + [Uncasts(300)]);
    StepKeepsHealth(t, ActChangeStake(ALICE, 1));
    assert 300 in Slate(300) && 300 !in t.v.producers;
    assert RevaluedWeight(t.v, ALICE, 1) == 0.0;
  }

  lemma Strangers(c: Chain, x: Scene)
    requires Shows(c, x)
    ensures forall p :: p in Slate(300) ==> p !in c.v.producers
    ensures 300 in Slate(300)
  {
    SlateNames(300);
    SlateNames(100);
  }

  /** So does the first vote of any other account that casts it through this one. */
  lemma InnocentVoteBlocked(c: Chain)
    requires Opening(c)
    ensures var t := Run(c, Start() + Former() + [Uncasts(300), ActChangeStake(BOB, 10)]);
            Step(t, ActVoteProducer(BOB, Some(ALICE), [], 0, false)) == Err(Broken)
  {
    hide Run, Step, Power, Start, Former, Healthy, Shows, Slate;
    Uncasting(c, 300);
    var before := Start() + Former() + [Uncasts(300)];
    var x := UncastScene(c, 300);
    var c0 := Run(c, before);
    NewAccount(c0, x, BOB, 10);
    var t := Step(c0, ActChangeStake(BOB, 10)).value;
    RunOn(c, before, [ActChangeStake(BOB, 10)], [c0, t]);
    var rest := [Uncasts(300), ActChangeStake(BOB, 10)];
    assert before + [ActChangeStake(BOB, 10)] == Start() + Former() + rest;
    FormerLegal(rest);
    OpeningLeads(c, Start() + Former() + rest);
    StepKeepsHealth(t, ActVoteProducer(BOB, Some(ALICE), [], 0, false));
    BlockedByStranger(t, x.(voters := x.voters[BOB := NewVoter(10, false)]));
  }

  lemma BlockedByStranger(t: Chain, x: Scene)
    requires Shows(t, x) && x.factor >= 1.0
    requires ALICE in x.voters && x.voters[ALICE] == Voter(None, Slate(300), -1, -x.factor, 0.0, true)
    requires BOB in x.voters && x.voters[BOB] == NewVoter(10, false)
    ensures ProducerVoteBlocked(t.v, BOB, Some(ALICE), [], 0)
  {
    Strangers(t, x);
    assert RevaluedWeight(t.v, BOB, 0) == 10.0 * x.factor;
    assert NextChange(t.v, ALICE, 10.0 * x.factor) == 10.0 * x.factor;
  }

  // ---------------------------------------------------------------------------------------------
  // Votes through her.

  function Through10(): seq<Action> {
    [ActChangeStake(BOB, 10), ActVoteProducer(BOB, Some(ALICE), [], 0, false)]
  }

  /**
   A large change distorts the tallies, too: what BOB casts is passed on in full, though part of it only
   makes up for her negative weight, which was never cast. The producers get ten units' votes, while nine are
   cast for them.
   */
  lemma LargeChangeDistorts(c: Chain, p: Name)
    requires Opening(c) && p in PRODUCERS
    ensures var t := Run(c, Start() + Former() + [Uncasts(100)] + Through10());
            && t.v.inexact && p in t.v.producers
            && t.v.producers[p].votes == 10.0 * c.v.factor && Sums.Sum(t.v.voters, Backing(p)) == 9.0 * c.v.factor
  {
    hide Run, Step, Power, Start, Former, Sums.Sum, Shows;
    FactorAtLeastOne(c.v.now, c.v.factor);
    BallotsDiffer(PRODUCERS);
    Uncasting(c, 100);
    var before := Start() + Former() + [Uncasts(100)];
    var f := c.v.factor;
    var x := UncastScene(c, 100);
    var c0 := Run(c, before);
    NewAccount(c0, x, BOB, 10);
    var c1 := Step(c0, ActChangeStake(BOB, 10)).value;
    var x1 := x.(voters := x.voters[BOB := NewVoter(10, false)]);
    VotesThrough(c1, x1, BOB, ALICE);
    var t := Step(c1, ActVoteProducer(BOB, Some(ALICE), [], 0, false)).value;
    RunOn(c, before, Through10(), [c0, c1, t]);
    var alice := Voter(None, PRODUCERS, -1, 9.0 * f, 10.0 * f, true);
    var bob := Voter(Some(ALICE), [], 10, 10.0 * f, 0.0, false);
    assert Carried(x1, ALICE, 10.0 * f) == alice;
    assert Change(x1, ALICE, 10.0 * f) == 10.0 * f;
    assert x1.voters[ALICE := alice][BOB := bob] == map[ALICE := alice, BOB := bob];
    var y := x.(voters := map[ALICE := alice, BOB := bob], each := 10.0 * f, activated := 29, inexact := true);
    assert Shows(t, y);
    Seen(t, y, p);
    TwoVoters(t.v.voters, ALICE, alice, BOB, bob, Backing(p));
  }

  lemma Seen(c: Chain, x: Scene, p: Name)
    requires Shows(c, x) && p in PRODUCERS
    ensures p in c.v.producers && c.v.producers[p].votes == x.each && c.v.voters == x.voters && c.v.inexact == x.inexact
  {
    SlateNames(100);
  }

  // ---------------------------------------------------------------------------------------------
  // Votes that turn negative.

  /** BOB votes through her before her REX loses worth, and for nobody after. */
  function Falls(): seq<Action> {
    Through10() + [Slated(ALICE, -1, true), ActVoteProducer(BOB, None, [], 0, false)]
  }

  function FallenScene(c: Chain): Scene {
    var f := c.v.factor;
    FormerScene(c).(
      voters := map[ALICE := Voter(None, PRODUCERS, -1, -f, 0.0, true), BOB := Voter(None, [], 10, 10.0 * f, 0.0, false)],
      each := -f, activated := 30, inexact := true)
  }

  lemma Falling(c: Chain)
    requires Opening(c)
    ensures Shows(Run(c, Start() + Former() + Falls()), FallenScene(c))
  {
    hide Run, Step, Power, Start, Former, Shows;
    FactorAtLeastOne(c.v.now, c.v.factor);
    BallotsDiffer(PRODUCERS);
    Formerly(c);
    var before := Start() + Former();
    var f := c.v.factor;
    var x := FormerScene(c);
    var c0 := Run(c, before);
    NewAccount(c0, x, BOB, 10);
    var c1 := Step(c0, ActChangeStake(BOB, 10)).value;
    var x1 := x.(voters := x.voters[BOB := NewVoter(10, false)]);
    VotesThrough(c1, x1, BOB, ALICE);
    var c2 := Step(c1, ActVoteProducer(BOB, Some(ALICE), [], 0, false)).value;
    var alice2 := Voter(None, PRODUCERS, 0, 10.0 * f, 10.0 * f, true);
    var bob2 := Voter(Some(ALICE), [], 10, 10.0 * f, 0.0, false);
    assert Carried(x1, ALICE, 10.0 * f) == alice2 && Change(x1, ALICE, 10.0 * f) == 10.0 * f;
    assert x1.voters[ALICE := alice2][BOB := bob2] == map[ALICE := alice2, BOB := bob2];
    var x2 := x.(voters := map[ALICE := alice2, BOB := bob2], each := 10.0 * f, activated := 30);
    assert Shows(c2, x2);
    Votes(c2, x2, ALICE, PRODUCERS, -1, true);
    var c3 := Step(c2, Slated(ALICE, -1, true)).value;
    var alice3 := Voter(None, PRODUCERS, -1, 9.0 * f, 10.0 * f, true);
    assert x2.voters[ALICE := alice3] == map[ALICE := alice3, BOB := bob2];
    var x3 := x.(voters := map[ALICE := alice3, BOB := bob2], each := 9.0 * f, activated := 30);
    assert Shows(c3, x3);
    TakingBack(c3, x3, f);
    var c4 := Step(c3, ActVoteProducer(BOB, None, [], 0, false)).value;
    RunOn(c, before, Falls(), [c0, c1, c2, c3, c4]);
  }

  lemma TakingBack(c: Chain, x: Scene, f: real)
    requires Shows(c, x) && x.factor == f >= 1.0 && x.each == 9.0 * f
    requires x.voters == map[ALICE := Voter(None, PRODUCERS, -1, 9.0 * f, 10.0 * f, true),
                             BOB := Voter(Some(ALICE), [], 10, 10.0 * f, 0.0, false)]
    ensures var d := Step(c, ActVoteProducer(BOB, None, [], 0, false));
            d.Ok? && Shows(d.value, x.(
              voters := map[ALICE := Voter(None, PRODUCERS, -1, -f, 0.0, true),
                            BOB := Voter(None, [], 10, 10.0 * f, 0.0, false)],
              each := -f, inexact := true))
  {
    hide Step, Shows;
    BallotsDiffer(PRODUCERS);
    VotesNobody(c, x, BOB, ALICE);
    var alice := Voter(None, PRODUCERS, -1, -f, 0.0, true);
    var bob := Voter(None, [], 10, 10.0 * f, 0.0, false);
    assert Carried(x, ALICE, -10.0 * f) == alice && Change(x, ALICE, -10.0 * f) == -10.0 * f;
    assert x.voters[ALICE := alice][BOB := bob] == map[ALICE := alice, BOB := bob];
  }

  /** What BOB takes back is more than was cast with her negative stake: her producers' votes, and all votes, turn negative. */
  lemma VotesTurnNegative(c: Chain, p: Name)
    requires Opening(c) && p in PRODUCERS
    ensures var t := Run(c, Start() + Former() + Falls());
            && p in t.v.producers && t.v.producers[p].votes == -c.v.factor && t.v.totalWeight == -21.0 * c.v.factor
  {
    hide Run, Power, Start, Former, Falls;
    Falling(c);
    Seen(Run(c, Start() + Former() + Falls()), FallenScene(c), p);
  }

  /** DAVE votes for the last producer. */
  function DaveVotes(staked: int): seq<Action> {
    [ActChangeStake(DAVE, staked), ActVoteProducer(DAVE, None, [LAST], 0, false)]
  }

  lemma DaveVoting(c: Chain, x: Scene, staked: int)
    requires Shows(c, x) && DAVE !in x.voters && staked > 0 && x.factor > 0.0 && x.other == 0.0
    ensures var d := Step(c, ActChangeStake(DAVE, staked));
            && d.Ok?
            && var weight := Stake2Vote(staked, x.factor);
               var e := Step(d.value, ActVoteProducer(DAVE, None, [LAST], 0, false));
               && e.Ok?
               && Shows(e.value, x.(
                    voters := x.voters[DAVE := NewVoter(staked, false).(weight := weight, producers := [LAST])],
                    other := weight, activated := x.activated + staked))
  {
    hide Step, Shows;
    BallotsDiffer([LAST]);
    NewAccount(c, x, DAVE, staked);
    var d := Step(c, ActChangeStake(DAVE, staked)).value;
    var y := x.(voters := x.voters[DAVE := NewVoter(staked, false)]);
    assert Stake2Vote(staked, x.factor) >= 0.0;
    Votes(d, y, DAVE, [LAST], 0, false);
    var row := NewVoter(staked, false).(weight := Stake2Vote(staked, x.factor), producers := [LAST]);
    assert y.voters[DAVE := row] == x.voters[DAVE := row];
  }

  /**
   The one active producer that has votes is not elected: an inactive one with negative votes comes first
   in the index, by its name, and ends the walk.
   */
  lemma NobodyElected(c: Chain)
    requires Opening(c)
    ensures var t := Run(c, Start() + Former() + Falls() + DaveVotes(1) + [ActDeactivate(100)]);
            LAST in t.v.producers && Electable(t.v.producers[LAST]) && Elected(t.v.producers) == []
  {
    hide Run, Step, Power, Start, Former, Falls, Shows, Elected;
    FactorAtLeastOne(c.v.now, c.v.factor);
    Falling(c);
    var before := Start() + Former() + Falls();
    var c0 := Run(c, before);
    DaveVoting(c0, FallenScene(c), 1);
    var c1 := Step(c0, ActChangeStake(DAVE, 1)).value;
    var c2 := Step(c1, ActVoteProducer(DAVE, None, [LAST], 0, false)).value;
    RunOn(c, before, DaveVotes(1), [c0, c1, c2]);
    var x := FallenScene(c);
    FirstDeactivates(c2, x.(
      voters := x.voters[DAVE := NewVoter(1, false).(weight := c.v.factor, producers := [LAST])],
      other := c.v.factor, activated := 31), c.v.factor);
    var t := Step(c2, ActDeactivate(100)).value;
    RunOn(c, before + DaveVotes(1), [ActDeactivate(100)], [c2, t]);
    LastNotElected(t.v.producers, c.v.factor);
  }

  lemma FirstDeactivates(c: Chain, x: Scene, f: real)
    requires Shows(c, x) && x.each == -f && x.other == f
    ensures var d := Step(c, ActDeactivate(100));
            && d.Ok?
            && 100 in d.value.v.producers && LAST in d.value.v.producers
            && !d.value.v.producers[100].active && d.value.v.producers[100].votes == -f
            && d.value.v.producers[LAST].active && d.value.v.producers[LAST].votes == f
            && forall p :: p in d.value.v.producers && p != LAST ==> d.value.v.producers[p].votes == -f
  {
    SlateNames(100);
  }

  lemma LastNotElected(producers: map<Name, Producer>, f: real)
    requires f > 0.0 && 100 in producers && LAST in producers
    requires !producers[100].active && producers[100].votes == -f && producers[LAST].active && producers[LAST].votes == f
    requires forall p :: p in producers && p != LAST ==> producers[p].votes == -f
    ensures Electable(producers[LAST]) && Elected(producers) == []
  {
    hide Elected;
    ElectedIff(producers);
    assert Blocks(producers, 100, LAST);
    SortedIndex.SomeName(Elected(producers));
  }

  // ---------------------------------------------------------------------------------------------
  // A claim that cannot be paid.

  /** CAROL's stake activates the chain, DAVE votes, a block is produced, and a day passes. */
  function DayPasses(c: Chain, grown: real): seq<Action> {
    [ActChangeStake(CAROL, MIN_ACTIVATED_STAKE), ActVoteProducer(CAROL, None, [], 0, false)] + DaveVotes(30)
    + [ActOnBlock(ALICE, 1, true), ActTime(c.v.now + ONE_DAY + 1, grown)]
  }

  ghost predicate DayPassed(d: Chain, c: Chain) {
    var r := d.v.producers;
    && LAST in r && r[LAST].active && r[LAST].lastClaim == c.v.now && r[LAST].votes == 30.0 * c.v.factor
    && d.v.totalWeight == 9.0 * c.v.factor && d.v.activatedStake >= MIN_ACTIVATED_STAKE
    && d.v.now == c.v.now + ONE_DAY + 1 && d.pay == c.pay.(lastFill := c.v.now)
  }

  lemma PassingDay(c: Chain, grown: real)
    requires Opening(c) && grown >= 0.0
    ensures DayPassed(Run(c, Start() + Former() + Falls() + DayPasses(c, grown)), c)
  {
    hide Run, Step, Power, Start, Former, Falls, Shows, DayPassed;
    FactorAtLeastOne(c.v.now, c.v.factor);
    BallotsDiffer([]);
    Falling(c);
    var before := Start() + Former() + Falls();
    var f := c.v.factor;
    var x := FallenScene(c);
    var c0 := Run(c, before);
    NewAccount(c0, x, CAROL, MIN_ACTIVATED_STAKE);
    var c1 := Step(c0, ActChangeStake(CAROL, MIN_ACTIVATED_STAKE)).value;
    var x1 := x.(voters := x.voters[CAROL := NewVoter(MIN_ACTIVATED_STAKE, false)]);
    Votes(c1, x1, CAROL, [], 0, false);
    var c2 := Step(c1, ActVoteProducer(CAROL, None, [], 0, false)).value;
    var x2 := x.(
      voters := x1.voters[CAROL := x1.voters[CAROL].(weight := Weight(x1.voters[CAROL], f), producers := [])],
      activated := 30 + MIN_ACTIVATED_STAKE);
    DaveVoting(c2, x2, 30);
    var c3 := Step(c2, ActChangeStake(DAVE, 30)).value;
    var c4 := Step(c3, ActVoteProducer(DAVE, None, [LAST], 0, false)).value;
    var x4 := x2.(voters := x2.voters[DAVE := NewVoter(30, false).(weight := 30.0 * f, producers := [LAST])],
                  other := 30.0 * f, activated := 60 + MIN_ACTIVATED_STAKE);
    assert Shows(c4, x4);
    FirstBlock(c4, x4);
    var c5 := Step(c4, ActOnBlock(ALICE, 1, true)).value;
    Later(c5, x4.(pay := x4.pay.(lastFill := x4.now)), c.v.now + ONE_DAY + 1, grown);
    var c6 := Step(c5, ActTime(c.v.now + ONE_DAY + 1, grown)).value;
    RunOn(c, before, DayPasses(c, grown), [c0, c1, c2, c3, c4, c5, c6]);
    ShowsDayPassed(c6, x4.(pay := x4.pay.(lastFill := x4.now), now := c.v.now + ONE_DAY + 1, factor := grown), c);
  }

  lemma FirstBlock(c: Chain, x: Scene)
    requires Shows(c, x) && x.pay.lastFill == 0 && x.pay.lastSchedule == 0 && x.activated >= MIN_ACTIVATED_STAKE
    ensures var d := Step(c, ActOnBlock(ALICE, 1, true)); d.Ok? && Shows(d.value, x.(pay := x.pay.(lastFill := x.now)))
  {
    hide Elected;
    SlateNames(100);
  }

  lemma ShowsDayPassed(d: Chain, x: Scene, c: Chain)
    requires Shows(d, x) && x.start == c.v.now && x.other == 30.0 * c.v.factor && x.each == -c.v.factor
    requires x.activated >= MIN_ACTIVATED_STAKE && x.now == c.v.now + ONE_DAY + 1 && x.pay == c.pay.(lastFill := c.v.now)
    ensures DayPassed(d, c)
  {
  }

  /** A day's inflation of a billion tokens of four decimals, and its part that is paid by votes. */
  lemma DayOfInflation()
    ensures NewTokens(10_000_000_000_000, ONE_DAY + 1) == 1_340_384_615
  {
  }

  lemma TenThirds(bucket: int, f: real)
    requires f > 0.0 && bucket > 0
    ensures PartOf(3 * bucket, 30.0 * f, 9.0 * f) == 10 * bucket
  {
    var whole, amount := 9.0 * f, (10 * bucket) as real;
    assert (3 * bucket) as real == 0.3 * amount;
    assert (3 * bucket) as real * (30.0 * f) == amount * whole by {
      Regroup(amount, f);
    }
    Cancels(amount, whole);
  }

  lemma Regroup(a: real, f: real)
    ensures (0.3 * a) * (30.0 * f) == a * (9.0 * f)
  {
  }

  lemma Cancels(a: real, b: real)
    requires b != 0.0
    ensures a * b / b == a
  {
  }

  /**
   The producer DAVE voted for has more than three times the votes there are in all, and a claim to more than
   three times the bucket.
   */
  lemma ClaimCannotBePaid(c: Chain, grown: real)
    requires Opening(c) && c.pay.supply == 10_000_000_000_000
    requires IsFactor(c.v.now + ONE_DAY + 1, grown)
    ensures Step(Run(c, Start() + Former() + Falls() + DayPasses(c, grown)), ActClaimRewards(LAST)) == Err(Broken)
  {
    hide Run, Step, Power, Start, Former, Falls, DayPasses, Healthy;
    PassingDay(c, grown);
    var t := Run(c, Start() + Former() + Falls() + DayPasses(c, grown));
    LaterLegal(c, grown);
    assert Start() + Former() + Falls() + DayPasses(c, grown) == Start() + Former() + (Falls() + DayPasses(c, grown));
    FormerLegal(Falls() + DayPasses(c, grown));
    OpeningLeads(c, Start() + Former() + Falls() + DayPasses(c, grown));
    StepKeepsHealth(t, ActClaimRewards(LAST));
    DayOfInflation();
    TenThirds(67_019_231, c.v.factor);
    assert FilledPerVote(t.pay, t.v.now) == 3 * 67_019_231;
  }

  lemma LaterLegal(c: Chain, grown: real)
    ensures forall a :: a in Falls() + DayPasses(c, grown) ==> Legal(a)
  {
  }

  // ---------------------------------------------------------------------------------------------
  // A small change.

  /** A proxy with one vote through it. */
  function Proxies(): seq<Action> {
    [ActRegProxy(ALICE, true), ActChangeStake(ALICE, 195_025), ActVoteProducer(ALICE, None, [LAST], 0, false),
     ActChangeStake(BOB, 80_782), ActVoteProducer(BOB, Some(ALICE), [], 0, false)]
  }

  function ProxyingScene(c: Chain): Scene {
    var f := c.v.factor;
    StartScene(c).(
      voters := map[ALICE := Voter(None, [LAST], 195_025, 275_807.0 * f, 80_782.0 * f, true),
                    BOB := Voter(Some(ALICE), [], 80_782, 80_782.0 * f, 0.0, false)],
      other := 275_807.0 * f, activated := 275_807)
  }

  lemma Proxying(c: Chain)
    requires Opening(c)
    ensures Shows(Run(c, Start() + Proxies()), ProxyingScene(c))
  {
    hide Run, Step, Power, Start, Shows;
    FactorAtLeastOne(c.v.now, c.v.factor);
    BallotsDiffer([LAST]);
    Starting(c);
    var f := c.v.factor;
    var x := StartScene(c);
    var c0 := Run(c, Start());
    NewAccount(c0, x, ALICE, 0);
    var c1 := Step(c0, ActRegProxy(ALICE, true)).value;
    var x1 := x.(voters := x.voters[ALICE := NewVoter(0, true)]);
    Stakes(c1, x1, ALICE, 195_025);
    var c2 := Step(c1, ActChangeStake(ALICE, 195_025)).value;
    var x2 := x.(voters := map[ALICE := NewVoter(195_025, true)]);
    assert x1.voters[ALICE := NewVoter(195_025, true)] == x2.voters;
    Votes(c2, x2, ALICE, [LAST], 0, false);
    var c3 := Step(c2, ActVoteProducer(ALICE, None, [LAST], 0, false)).value;
    var alice3 := Voter(None, [LAST], 195_025, 195_025.0 * f, 0.0, true);
    assert x2.voters[ALICE := alice3] == map[ALICE := alice3];
    var x3 := x.(voters := map[ALICE := alice3], other := 195_025.0 * f, activated := 195_025);
    assert Shows(c3, x3);
    NewAccount(c3, x3, BOB, 80_782);
    var c4 := Step(c3, ActChangeStake(BOB, 80_782)).value;
    var x4 := x3.(voters := x3.voters[BOB := NewVoter(80_782, false)]);
    VotesThrough(c4, x4, BOB, ALICE);
    var c5 := Step(c4, ActVoteProducer(BOB, Some(ALICE), [], 0, false)).value;
    var alice5 := Voter(None, [LAST], 195_025, 275_807.0 * f, 80_782.0 * f, true);
    var bob5 := Voter(Some(ALICE), [], 80_782, 80_782.0 * f, 0.0, false);
    assert Carried(x4, ALICE, 80_782.0 * f) == alice5 && Change(x4, ALICE, 80_782.0 * f) == 80_782.0 * f;
    assert x4.voters[ALICE := alice5][BOB := bob5] == ProxyingScene(c).voters;
    assert Shows(c5, ProxyingScene(c));
    RunOn(c, Start(), Proxies(), [c0, c1, c2, c3, c4, c5]);
  }

  /** In half a year a unit's votes grow by the root of two; the smaller stake is then worth more, by less than a vote. */
  lemma AlmostEqual(f: real, g: real)
    requires f == 524_288.0 && g > 0.0 && g * g == 2.0 * f * f
    ensures 0.0 < 195_025.0 * g - 275_807.0 * f <= 1.0
  {
    var a, b := 195_025.0 * g, 275_807.0 * f;
    assert a * a == 38_034_750_625.0 * (g * g);
    assert b * b == 76_069_501_249.0 * (f * f);
    assert (a - b) * (a + b) == f * f;
    Between(a - b, a + b, f * f);
  }

  lemma Between(d: real, e: real, product: real)
    requires d * e == product > 0.0 && e > 0.0
    ensures d > 0.0 && (e >= product ==> d <= 1.0)
  {
    assert d > 1.0 ==> (d - 1.0) * e > 0.0;
    assert d <= 0.0 ==> -d * e >= 0.0;
  }

  /**
   BOB takes his vote back when ALICE's own stake has grown in votes by almost as much. The change of her weight
   is less than one vote and is stored, but not passed on; her producer keeps the votes it had.
   */
  lemma SmallChangeIsLost(c: Chain, later: int, grown: real)
    requires Opening(c) && Weeks(c.v.now) == 19 * 52
    requires later >= c.v.now && IsFactor(later, grown) && Weeks(later) == 39 * 26
    ensures var t := Run(c, Start() + Proxies() + [ActTime(later, grown), ActVoteProducer(BOB, None, [], 0, false)]);
            && t.v.inexact && LAST in t.v.producers
            && t.v.producers[LAST].votes == 275_807.0 * c.v.factor
            && Sums.Sum(t.v.voters, Backing(LAST)) == 195_025.0 * grown
            && 0.0 < 195_025.0 * grown - 275_807.0 * c.v.factor <= 1.0
  {
    hide Run, Step, Power, Start, Shows, Sums.Sum, Proxies;
    LaterFactors(c.v.now, c.v.factor, later, grown);
    AlmostEqual(c.v.factor, grown);
    BallotsDiffer([LAST]);
    Proxying(c);
    var before := Start() + Proxies();
    var x := ProxyingScene(c);
    var c0 := Run(c, before);
    Later(c0, x, later, grown);
    var c1 := Step(c0, ActTime(later, grown)).value;
    var x1 := x.(now := later, factor := grown);
    VotesNobody(c1, x1, BOB, ALICE);
    var t := Step(c1, ActVoteProducer(BOB, None, [], 0, false)).value;
    RunOn(c, before, [ActTime(later, grown), ActVoteProducer(BOB, None, [], 0, false)], [c0, c1, t]);
    var alice := Voter(None, [LAST], 195_025, 195_025.0 * grown, 0.0, true);
    var bob := Voter(None, [], 80_782, 80_782.0 * grown, 0.0, false);
    var back := -80_782.0 * c.v.factor;
    assert Carried(x1, ALICE, back) == alice;
    assert x1.voters[ALICE := alice][BOB := bob] == map[ALICE := alice, BOB := bob];
    var y := x1.(voters := map[ALICE := alice, BOB := bob], inexact := true);
    assert Shows(t, y);
    LastSeen(t, y);
    TwoVoters(t.v.voters, ALICE, alice, BOB, bob, Backing(LAST));
  }

  lemma LastSeen(c: Chain, x: Scene)
    requires Shows(c, x)
    ensures LAST in c.v.producers && c.v.producers[LAST].votes == x.other && c.v.voters == x.voters && c.v.inexact == x.inexact
  {
  }
}
