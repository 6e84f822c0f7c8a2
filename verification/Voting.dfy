/**
 Votes: who backs which producer, directly or through a chain of proxies, and the time-weighted
 shares by which producers are later paid. Weights and shares are exact reals.

 On a fresh chain a producer's rows in the tables `producers` and `producers2` are created
 together; they are one row here.
 */
module Voting {
  import opened Basics
  import SortedIndex

  datatype Voter = Voter(
    proxy: Option<Name>,
    producers: seq<Name>,
    staked: int,
    weight: real,   // last_vote_weight: the weight last cast
    proxied: real,  // proxied_vote_weight: the weight others cast through this account
    isProxy: bool)

  datatype Producer = Producer(
    votes: real,
    active: bool,
    unpaid: nat,
    lastClaim: int,
    share: real,    // votepay_share
    updated: int)   // last_votepay_share_update

  /** Times are microseconds. */
  datatype State = State(
    voters: map<Name, Voter>,
    producers: map<Name, Producer>,
    totalWeight: real,     // total_producer_vote_weight
    activatedStake: int,   // total_activated_stake
    threshTime: int,       // thresh_activated_stake_time; 0 until reached
    totalShare: real,      // total_producer_votepay_share
    rate: real,            // total_vpay_share_change_rate
    shareTime: int,        // last_vpay_state_update
    now: int,
    factor: real,          // votes per staked unit at the present time
    // Not in the contract: whether a weight stored while passing weight on ever differed, in the votes
    // it stands for, from what was passed on.
    inexact: bool)

  const THREE_DAYS: int := 3 * 24 * 3600 * 1_000_000
  const MIN_ACTIVATED_STAKE: int := 1_500_000_000_000

  /** What accrues at a rate per second over a number of microseconds. */
  function Growth(rate: real, t: int): real {
    rate * (t as real / 1_000_000.0)
  }

  /** A new voter row, as `update_voting_power` and `regproxy` create it. */
  function NewVoter(staked: int, isProxy: bool): Voter {
    Voter(None, [], staked, 0.0, 0.0, isProxy)
  }

  /** `stake2vote`. */
  function Stake2Vote(staked: int, factor: real): real {
    staked as real * factor
  }

  /** The weight an account would cast now. */
  function VoteWeight(s: State, r: Voter): real {
    Stake2Vote(r.staked, s.factor) + (if r.isProxy then r.proxied else 0.0)
  }

  // ---------------------------------------------------------------------------------------------
  // Moving votes between producers.

  /** A producer accrues shares only until three days after its last claim. */
  predicate Counted(r: Producer) {
    r.updated < r.lastClaim + THREE_DAYS
  }

  /** The share accrued since the last update, at the given rate. */
  function Accrued(r: Producer, rate: real, now: int): real {
    r.share + (if rate > 0.0 && now > r.updated then Growth(rate, now - r.updated) else 0.0)
  }

  function UpdateShare(r: Producer, rate: real, now: int, reset: bool): Producer {
    r.(share := if reset then 0.0 else Accrued(r, rate, now), updated := now)
  }

  /** A state with corrections to the global share and rate still to be applied. */
  datatype Shift = Shift(s: State, inactive: real, rate: real)

  /** Votes to move to (or, negative, away from) one producer. */
  datatype Delta = Delta(producer: Name, votes: real, isNew: bool)

  /** The two callers: an account casting its vote, or a weight change passed on. */
  datatype Cause = Cast(voting: bool) | PassedOn

  function ShiftProducer(f: Shift, d: Delta, cause: Cause): Shift
    requires d.producer in f.s.producers
  {
    var r := f.s.producers[d.producer];
    var votes := if cause.Cast? && r.votes + d.votes < 0.0 then 0.0 else r.votes + d.votes;
    var crossed := r.lastClaim + THREE_DAYS <= f.s.now;
    var rate := if Counted(r) then r.votes else 0.0;
    var row := UpdateShare(r, rate, f.s.now, crossed && Counted(r)).(votes := votes);
    var s := f.s.(producers := f.s.producers[d.producer := row], totalWeight := f.s.totalWeight + d.votes);
    if !crossed then Shift(s, f.inactive, f.rate + d.votes)
    else if Counted(r) then Shift(s, f.inactive + Accrued(r, rate, f.s.now), f.rate - r.votes)
    else Shift(s, f.inactive, f.rate)
  }

  function ShiftOne(f: Shift, d: Delta, cause: Cause): Result<Shift> {
    if d.producer in f.s.producers then
      var _ :- Need(cause != Cast(true) || f.s.producers[d.producer].active || !d.isNew, Rejected);
      Ok(ShiftProducer(f, d, cause))
    else if cause == PassedOn then Err(Broken)
    else
      var _ :- Need(!d.isNew, if cause.voting then Rejected else Broken);
      Ok(f)
  }

  function ShiftAll(s: State, ds: seq<Delta>, cause: Cause): Result<Shift>
    decreases |ds|
  {
    if ds == [] then Ok(Shift(s, 0.0, 0.0))
    else
      var f :- ShiftAll(s, ds[..|ds| - 1], cause);
      ShiftOne(f, ds[|ds| - 1], cause)
  }

  /** Integrates the global share up to now, then applies the corrections; neither may fall below zero. */
  function UpdateTotalShare(s: State, extra: real, rateDelta: real): State {
    var elapsed := if s.now > s.shareTime then Growth(s.rate, s.now - s.shareTime) else 0.0;
    var delta := elapsed + extra;
    s.(totalShare := if delta < 0.0 && s.totalShare < -delta then 0.0 else s.totalShare + delta,
       rate := if rateDelta < 0.0 && s.rate < -rateDelta then 0.0 else s.rate + rateDelta,
       shareTime := s.now)
  }

  function MoveVotes(s: State, ds: seq<Delta>, cause: Cause): Result<State> {
    var f :- ShiftAll(s, ds, cause);
    Ok(UpdateTotalShare(f.s, -f.inactive, f.rate))
  }

  // ---------------------------------------------------------------------------------------------
  // Passing weight changes along chains of proxies.

  function Each(producers: seq<Name>, delta: real): seq<Delta> {
    seq(|producers|, i requires 0 <= i < |producers| => Delta(producers[i], delta, false))
  }

  function AddProxied(s: State, v: Name, delta: real): State
    requires v in s.voters
  {
    s.(voters := s.voters[v := s.voters[v].(proxied := s.voters[v].proxied + delta)])
  }

  predicate HasBallot(r: Voter) {
    r.proxy.Some? || r.producers != []
  }

  /** The votes a stored weight stands for: a negative weight is stored, but never cast. */
  function CastWeight(weight: real): real {
    if weight > 0.0 then weight else 0.0
  }

  /** The part of a weight change that is passed on: changes of at most one are not. */
  function PassedChange(delta: real): real {
    if -1.0 <= delta <= 1.0 then 0.0 else delta
  }

  /** Whether storing a new weight changes the votes it stands for by other than what is passed on. */
  predicate Distorted(r: Voter, weight: real) {
    HasBallot(r) && PassedChange(weight - r.weight) != CastWeight(weight) - CastWeight(r.weight)
  }

  function SetWeight(s: State, v: Name, weight: real): State
    requires v in s.voters
  {
    s.(voters := s.voters[v := s.voters[v].(weight := weight)],
       inexact := s.inexact || Distorted(s.voters[v], weight))
  }

  /**
   The accounts on the way here are `seen`. The contract keeps no such set: meeting an account
   again, its recursion would not return.
   */
  function Propagate(s: State, v: Name, seen: set<Name>): (r: Result<State>)
    ensures r.Ok? ==> r.value.voters.Keys == s.voters.Keys
    decreases s.voters.Keys - seen
  {
    if v !in s.voters then Err(Broken)
    else if v in seen then Err(Endless)
    else
      var r := s.voters[v];
      var _ :- Need(r.proxy.None? || !r.isProxy, Broken);
      var weight := VoteWeight(s, r);
      var s1 :- PassOn(s, v, weight - r.weight, seen);
      Ok(SetWeight(s1, v, weight))
  }

  /** What a change of account `v`'s weight does to whoever that weight was cast for. */
  function PassOn(s: State, v: Name, delta: real, seen: set<Name>): (r: Result<State>)
    requires v in s.voters && v !in seen
    ensures r.Ok? ==> r.value.voters.Keys == s.voters.Keys
    decreases s.voters.Keys - seen, 0
  {
    var r := s.voters[v];
    if -1.0 <= delta <= 1.0 then Ok(s)
    else if r.proxy.None? then PassToProducers(s, r.producers, delta)
    else
      var _ :- Need(r.proxy.value in s.voters, Broken);
      Propagate(AddProxied(s, r.proxy.value, delta), r.proxy.value, seen + {v})
  }

  function PassToProducers(s: State, producers: seq<Name>, delta: real): (r: Result<State>)
    ensures r.Ok? ==> r.value.voters == s.voters
  {
    ShiftAllSparesVoters(s, Each(producers, delta), PassedOn);
    MoveVotes(s, Each(producers, delta), PassedOn)
  }

  lemma {:induction false} ShiftAllSparesVoters(s: State, ds: seq<Delta>, cause: Cause)
    ensures ShiftAll(s, ds, cause).Ok? ==>
      var t := ShiftAll(s, ds, cause).value.s;
      t.(producers := s.producers, totalWeight := s.totalWeight) == s
    decreases |ds|
  {
    if ds != [] {
      ShiftAllSparesVoters(s, ds[..|ds| - 1], cause);
    }
  }

  // ---------------------------------------------------------------------------------------------
  // Casting a vote.

  predicate Ascending(names: seq<Name>) {
    forall i, j :: 0 <= i < j < |names| ==> names[i] < names[j]
  }

  /** A ballot names either a proxy or at most thirty producers in order. */
  predicate ValidBallot(v: Name, proxy: Option<Name>, producers: seq<Name>) {
    match proxy
    case Some(p) => producers == [] && p != v
    case None => |producers| <= 30 && Ascending(producers)
  }

  /** The first vote of an account activates its stake. */
  function Activate(s: State, r: Voter): State {
    if r.weight > 0.0 then s
    else
      var total := s.activatedStake + r.staked;
      s.(activatedStake := total,
         threshTime := if total >= MIN_ACTIVATED_STAKE && s.threshTime == 0 then s.now else s.threshTime)
  }

  /** Takes an account's last weight back from the proxy it was cast through. */
  function Undo(s: State, v: Name, r: Voter): Result<State> {
    if r.weight <= 0.0 || r.proxy.None? then Ok(s)
    else
      var _ :- Need(r.proxy.value in s.voters, Broken);
      Propagate(AddProxied(s, r.proxy.value, -r.weight), r.proxy.value, {v})
  }

  /** Casts a weight through a proxy, which must be registered if the account chose it just now. */
  function CastProxy(s: State, v: Name, proxy: Option<Name>, weight: real, voting: bool): Result<State> {
    match proxy
    case None => Ok(s)
    case Some(p) =>
      var _ :- Need(p in s.voters, if voting then Rejected else Broken);
      var _ :- Need(!voting || s.voters[p].isProxy, Rejected);
      if weight >= 0.0 then Propagate(AddProxied(s, p, weight), p, {v}) else Ok(s)
  }

  /** Moves an account's weight from its old proxy, if any, to its new one, if any. */
  function MoveProxied(s: State, v: Name, proxy: Option<Name>, weight: real, voting: bool): Result<State>
    requires v in s.voters
  {
    var s :- Undo(s, v, s.voters[v]);
    CastProxy(s, v, proxy, weight, voting)
  }

  function Names(names: seq<Name>): set<Name> {
    set p | p in names
  }

  /** The producers on either of two ballots, by name. */
  function BallotNames(before: seq<Name>, after: seq<Name>): (names: seq<Name>)
    ensures Ascending(names)
    ensures forall p :: p in names <==> p in before || p in after
  {
    SortedIndex.ByName(Names(before) + Names(after))
  }

  /** The votes an old ballot takes from producers and a new one gives them. */
  function BallotDeltas(before: seq<Name>, oldWeight: real, after: seq<Name>, newWeight: real): seq<Delta> {
    var names := BallotNames(before, after);
    seq(|names|, i requires 0 <= i < |names| =>
      Delta(names[i],
            (if names[i] in after then newWeight else 0.0) - (if names[i] in before then oldWeight else 0.0),
            names[i] in after))
  }

  function Recast(r: Voter, weight: real, proxy: Option<Name>, producers: seq<Name>): seq<Delta> {
    BallotDeltas(if r.weight > 0.0 && r.proxy.None? then r.producers else [], r.weight,
                 if weight >= 0.0 && proxy.None? then producers else [], weight)
  }

  function UpdateVotes(s: State, v: Name, proxy: Option<Name>, producers: seq<Name>, voting: bool): Result<State> {
    var invalid := if voting then Rejected else Broken;
    var _ :- Need(ValidBallot(v, proxy, producers), invalid);
    var _ :- Need(v in s.voters, invalid);
    var r := s.voters[v];
    var _ :- Need(proxy.None? || !r.isProxy, invalid);
    var weight := VoteWeight(s, r);
    var s :- MoveProxied(Activate(s, r), v, proxy, weight, voting);
    var s :- MoveVotes(s, Recast(r, weight, proxy, producers), Cast(voting));
    var _ :- Need(v in s.voters, Broken);
    Ok(s.(voters := s.voters[v := s.voters[v].(weight := weight, producers := producers, proxy := proxy)]))
  }

  // ---------------------------------------------------------------------------------------------
  // Actions.

  /** `voteproducer`. Before the vote, REX held by the account is revalued by `rexDelta`. */
  function VoteProducer(
    s: State, v: Name, proxy: Option<Name>, producers: seq<Name>, rexDelta: int, holdsRex: bool): Result<State>
  {
    var s := if v in s.voters then
               s.(voters := s.voters[v := s.voters[v].(staked := s.voters[v].staked + rexDelta)])
             else s;
    var s :- UpdateVotes(s, v, proxy, producers, true);
    var _ :- Need(!holdsRex || proxy.Some? || 21 <= |producers|, Rejected);
    Ok(s)
  }

  /** `update_voting_power`: a change of an account's stake, counted at once if it has voted. */
  function ChangeStake(s: State, v: Name, delta: int): Result<State> {
    var row := if v in s.voters then s.voters[v].(staked := s.voters[v].staked + delta) else NewVoter(delta, false);
    var s := s.(voters := s.voters[v := row]);
    var _ :- Need(0 <= row.staked, Rejected);
    if |row.producers| > 0 || row.proxy.Some? then UpdateVotes(s, v, row.proxy, row.producers, false) else Ok(s)
  }

  function RegProxy(s: State, v: Name, isProxy: bool): Result<State> {
    if v in s.voters then
      var _ :- Need(isProxy != s.voters[v].isProxy, Rejected);
      var _ :- Need(!isProxy || s.voters[v].proxy.None?, Rejected);
      Propagate(s.(voters := s.voters[v := s.voters[v].(isProxy := isProxy)]), v, {})
    else Ok(s.(voters := s.voters[v := NewVoter(0, isProxy)]))
  }

  function RegProducer(s: State, p: Name): State {
    var row := if p in s.producers then
                 var r := s.producers[p];
                 r.(active := true, lastClaim := if r.lastClaim == 0 then s.now else r.lastClaim)
               else Producer(0.0, true, 0, s.now, 0.0, s.now);
    s.(producers := s.producers[p := row])
  }

  /** `unregprod` by the producer, or `rmvproducer` by the system. */
  function Deactivate(s: State, p: Name): Result<State> {
    var _ :- Need(p in s.producers, Rejected);
    Ok(s.(producers := s.producers[p := s.producers[p].(active := false)]))
  }
}
