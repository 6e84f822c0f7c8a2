/**
 Producers: electing the block producers, counting the blocks they produce, and paying them out of
 inflation by blocks and by votes. With Voting, the state machine of everything about votes.
 */
module Governance {
  import opened Basics
  import opened Ledger
  import opened Voting
  import SortedIndex

  /** The pay buckets and the election, beside the voting tables. */
  datatype Pay = Pay(
    perVote: int,          // pervote_bucket
    perBlock: int,         // perblock_bucket
    unpaid: nat,           // total_unpaid_blocks
    lastFill: int,         // last_pervote_bucket_fill; 0 until started
    revision: nat,
    scheduleSize: nat,     // last_producer_schedule_size
    lastSchedule: nat,     // slot of last_producer_schedule_update
    supply: int,
    tokens: Tokens)

  datatype Chain = Chain(v: State, pay: Pay)

  const ONE_DAY: int := 24 * 3600 * 1_000_000
  const ONE_YEAR: int := 52 * 7 * 24 * 3600 * 1_000_000
  const MIN_DAILY_PAY: int := 1_000_000

  // ---------------------------------------------------------------------------------------------
  // The election.

  /** `by_votes`: the most voted active producers first, inactive ones last. */
  function VoteKeys(producers: map<Name, Producer>): map<Name, real> {
    map p | p in producers :: if producers[p].active then -producers[p].votes else producers[p].votes
  }

  predicate Electable(r: Producer) {
    r.active && r.votes > 0.0
  }

  /** How far the walk over the index gets: to the 21st producer, or to the first not electable. */
  function Cut(producers: map<Name, Producer>, walk: seq<Name>, from: nat): (k: nat)
    requires from <= |walk| && from <= 21
    requires forall p :: p in walk ==> p in producers
    ensures from <= k <= |walk| && k <= 21
    decreases |walk| - from
  {
    if from < |walk| && from < 21 && Electable(producers[walk[from]]) then Cut(producers, walk, from + 1) else from
  }

  /** The schedule to propose: the producers the walk meets, by name. */
  function Elected(producers: map<Name, Producer>): seq<Name> {
    SortedIndex.WalkIsIndex(VoteKeys(producers));
    var walk := SortedIndex.Walk(VoteKeys(producers));
    SortedIndex.ByName(Names(walk[..Cut(producers, walk, 0)]))
  }

  /** A smaller schedule than the present one is not proposed; `accepted` is the chain's answer. */
  function UpdateElected(c: Chain, slot: nat, accepted: bool): Chain {
    var size := |Elected(c.v.producers)|;
    c.(pay := c.pay.(lastSchedule := slot,
                     scheduleSize := if size >= c.pay.scheduleSize && accepted then size else c.pay.scheduleSize))
  }

  /** `onblock`. Slots are 32 bits wide, and so is their difference. */
  function OnBlock(c: Chain, slot: nat, producer: Name, accepted: bool): Chain {
    if c.v.activatedStake < MIN_ACTIVATED_STAKE then c
    else
      var c := c.(pay := c.pay.(lastFill := if c.pay.lastFill == 0 then c.v.now else c.pay.lastFill));
      var c := if producer in c.v.producers then
                 var r := c.v.producers[producer];
                 Chain(c.v.(producers := c.v.producers[producer := r.(unpaid := r.unpaid + 1)]),
                       c.pay.(unpaid := c.pay.unpaid + 1))
               else c;
      if (slot - c.pay.lastSchedule) % 0x1_0000_0000 > 120 then UpdateElected(c, slot, accepted) else c
  }

  // ---------------------------------------------------------------------------------------------
  // Pay.

  /** Continuous inflation of 4.879% a year over the time since the buckets were last filled. */
  function NewTokens(supply: int, elapsed: int): int {
    4879 * supply * elapsed / (100_000 * ONE_YEAR)
  }

  /** A fifth of new tokens goes to producers, a quarter of that by blocks; the rest is saved. */
  function Refill(pay: Pay, now: int): Result<Pay> {
    if now <= pay.lastFill || pay.lastFill <= 0 then Ok(pay)
    else
      var issued := NewTokens(pay.supply, now - pay.lastFill);
      var toProducers := issued / 5;
      var toBlocks := toProducers / 4;
      var toVotes := toProducers - toBlocks;
      var t :- Issue(pay.tokens, SYSTEM, issued);
      var t :- Transfer(t, SYSTEM, SAVING_ACCOUNT, issued - toProducers, Broken);
      var t :- Transfer(t, SYSTEM, BPAY_ACCOUNT, toBlocks, Broken);
      var t :- Transfer(t, SYSTEM, VPAY_ACCOUNT, toVotes, Broken);
      Ok(pay.(tokens := t, supply := pay.supply + issued,
              perVote := pay.perVote + toVotes, perBlock := pay.perBlock + toBlocks, lastFill := now))
  }

  function BlockPay(pay: Pay, r: Producer): int {
    if pay.unpaid > 0 then pay.perBlock * r.unpaid / pay.unpaid else 0
  }

  /** The share a claim is for, and the producer's row once that share is taken. */
  function ClaimedShare(r: Producer, now: int): real {
    Accrued(r, if Counted(r) then r.votes else 0.0, now)
  }

  function ClaimedRow(r: Producer, now: int): Producer {
    UpdateShare(r, if Counted(r) then r.votes else 0.0, now, true)
  }

  /** A bucket's part, as a part is to a whole, in whole tokens. */
  function PartOf(bucket: int, part: real, whole: real): int
    requires whole > 0.0
  {
    (bucket as real * part / whole).Floor
  }

  /** Pay by votes: by accrued shares since the first revision, by present votes before. */
  function VotePayment(pay: Pay, s: State, r: Producer, share: real, now: int): int {
    var amount :=
      if pay.revision > 0 then
        if s.totalShare > 0.0 && now < r.lastClaim + THREE_DAYS then
          Min(PartOf(pay.perVote, share, s.totalShare), pay.perVote)
        else 0
      else if s.totalWeight > 0.0 then PartOf(pay.perVote, r.votes, s.totalWeight)
      else 0;
    if amount < MIN_DAILY_PAY then 0 else amount
  }

  function PayOut(tokens: Tokens, from: Name, to: Name, amount: int): Result<Tokens> {
    if amount > 0 then Transfer(tokens, from, to, amount, Broken) else Ok(tokens)
  }

  /** The tables when a claim is valued: since the first revision, with the global share up to date. */
  function AtClaim(s: State, p: Name, revised: bool): State
    requires p in s.producers
  {
    var t := s.(producers := s.producers[p := ClaimedRow(s.producers[p], s.now)]);
    if revised then UpdateTotalShare(t, 0.0, 0.0) else t
  }

  /** The tables after it: the claimed share is gone, and a producer no longer counted is counted again. */
  function AfterClaim(s: State, p: Name, revised: bool): State
    requires p in s.producers
  {
    var r := s.producers[p];
    var t := UpdateTotalShare(AtClaim(s, p, revised), -ClaimedShare(r, s.now), if Counted(r) then 0.0 else r.votes);
    t.(producers := s.producers[p := ClaimedRow(r, s.now).(lastClaim := s.now, unpaid := 0)])
  }

  function ClaimVotePay(s: State, pay: Pay, p: Name): int
    requires p in s.producers
  {
    var r := s.producers[p];
    VotePayment(pay, AtClaim(s, p, pay.revision > 0), r, ClaimedShare(r, s.now), s.now)
  }

  function ClaimRewards(c: Chain, p: Name): Result<Chain> {
    var _ :- Need(p in c.v.producers, Rejected);
    var r := c.v.producers[p];
    var _ :- Need(r.active && c.v.activatedStake >= MIN_ACTIVATED_STAKE && c.v.now - r.lastClaim > ONE_DAY, Rejected);
    var pay :- Refill(c.pay, c.v.now);
    var blockPay := BlockPay(pay, r);
    var votePay := ClaimVotePay(c.v, pay, p);
    var _ :- Need(r.unpaid <= pay.unpaid, Broken);
    var t :- PayOut(pay.tokens, BPAY_ACCOUNT, p, blockPay);
    var t :- PayOut(t, VPAY_ACCOUNT, p, votePay);
    Ok(Chain(AfterClaim(c.v, p, pay.revision > 0),
             pay.(perVote := pay.perVote - votePay, perBlock := pay.perBlock - blockPay,
                  unpaid := pay.unpaid - r.unpaid, tokens := t)))
  }

  // ---------------------------------------------------------------------------------------------
  // Every action, and any run of them.

  datatype Action =
    | ActVoteProducer(voter: Name, proxy: Option<Name>, producers: seq<Name>, rexDelta: int, holdsRex: bool)
    | ActChangeStake(voter: Name, delta: int)
    | ActRegProxy(voter: Name, isProxy: bool)
    | ActRegProducer(producer: Name)
    | ActDeactivate(producer: Name)
    | ActClaimRewards(producer: Name)
    | ActOnBlock(producer: Name, slot: nat, accepted: bool)
    | ActUpdateRevision(revision: nat)
    | ActTime(now: int, factor: real)

  function OnVoting(c: Chain, r: Result<State>): Result<Chain> {
    var s :- r;
    Ok(c.(v := s))
  }

  function Step(c: Chain, a: Action): Result<Chain> {
    match a
    case ActVoteProducer(voter, proxy, producers, rexDelta, holdsRex) =>
      OnVoting(c, VoteProducer(c.v, voter, proxy, producers, rexDelta, holdsRex))
    case ActChangeStake(voter, delta) => OnVoting(c, ChangeStake(c.v, voter, delta))
    case ActRegProxy(voter, isProxy) => OnVoting(c, RegProxy(c.v, voter, isProxy))
    case ActRegProducer(producer) => Ok(c.(v := RegProducer(c.v, producer)))
    case ActDeactivate(producer) => OnVoting(c, Deactivate(c.v, producer))
    case ActClaimRewards(producer) => ClaimRewards(c, producer)
    case ActOnBlock(producer, slot, accepted) => Ok(OnBlock(c, slot, producer, accepted))
    case ActUpdateRevision(revision) =>
      var _ :- Need(revision == c.pay.revision + 1 && revision <= 1, Rejected);
      Ok(c.(pay := c.pay.(revision := revision)))
    // Time only moves forward, and a staked unit is never worth a negative number of votes.
    case ActTime(now, factor) =>
      var _ :- Need(c.v.now <= now && factor >= 0.0, Rejected);
      Ok(c.(v := c.v.(now := now, factor := factor)))
  }

  /** An aborted action is rolled back by the chain. */
  function Run(c: Chain, actions: seq<Action>): Chain
    decreases |actions|
  {
    if actions == [] then c
    else
      var before := Run(c, actions[..|actions| - 1]);
      match Step(before, actions[|actions| - 1])
      case Ok(after) => after
      case Err(_) => before
  }

  /** A fresh chain: no voters, no producers, empty buckets. */
  function Genesis(now: int, factor: real, supply: int, tokens: Tokens): Chain {
    Chain(State(map[], map[], 0.0, 0, 0, 0.0, 0.0, 0, now, factor, false),
          Pay(0, 0, 0, 0, 0, 0, 0, supply, tokens))
  }
}
