/**
 The resource exchange and staking: tokens are lent to the REX pool for shares, the pool lends them
 on as CPU and NET bandwidth, shares are sold through a queue when the pool runs short, and tokens
 are staked and unstaked directly. These components share the resource totals and voting stakes.
 */
module Exchange {
  import opened Basics
  import opened Ledger
  import opened RexPool
  import opened RexBalance
  import SortedIndex

  datatype Order = Order(requested: int, proceeds: int, stakeChange: int, time: int, open: bool)

  datatype Loan = Loan(from: Name, receiver: Name, payment: int, balance: int, staked: int, expiration: int)

  datatype Kind = Cpu | Net

  /** The tables `cpuloan` and `netloan`. */
  datatype Loans = Loans(cpu: map<nat, Loan>, net: map<nat, Loan>)
  {
    function Of(kind: Kind): map<nat, Loan> {
      if kind == Cpu then cpu else net
    }

    function With(kind: Kind, table: map<nat, Loan>): Loans {
      if kind == Cpu then this.(cpu := table) else this.(net := table)
    }
  }

  /** Who delegates to whom. */
  datatype Edge = Edge(from: Name, to: Name)

  datatype Weights = Weights(net: int, cpu: int)

  type Delegations = map<Edge, Weights>

  datatype Resources = Resources(net: int, cpu: int, ram: int)

  /** The request time is in seconds. */
  datatype Refund = Refund(time: int, net: int, cpu: int)

  datatype Purchase = Purchase(owner: Name, maturity: int, amount: int)

  datatype Sale = Sale(owner: Name, amount: int)

  /** The time is in microseconds. */
  datatype Unstaking = Unstaking(owner: Name, time: int, amount: int)

  /** Why tokens enter or leave what the exchange holds for an account. */
  datatype Reason = PaidIn | PaidOut | ForShares | FromSale | ForRent | ForRenewal

  datatype Deal = Deal(owner: Name, reason: Reason, amount: int)

  /** What happened so far. Not in the contract, and read by none of its actions. */
  datatype Log = Log(
    purchases: seq<Purchase>,      // REX issued
    sales: seq<Sale>,              // REX redeemed, directly or from the queue
    fills: map<Name, seq<int>>,    // the proceeds of each queued order filled
    credits: map<Name, seq<int>>,  // the proceeds of queued orders credited, by the account whose fund they went to
    deals: seq<Deal>,              // tokens an account brought in, took out, spent or earned
    unstaked: seq<Unstaking>,      // tokens undelegated, to wait for their refund
    refunded: map<Name, int>,      // tokens `refund` paid each account
    drift: map<Name, int>,         // by how much voting stake has come to exceed holdings
    dust: set<Name>,               // accounts whose first purchase bought no REX at all
    epoch: nat)                    // how often the pool was filled from empty

  datatype State = State(
    pool: Option<Pool>,
    funds: map<Name, int>,
    balances: map<Name, Balance>,
    orders: map<Name, Order>,
    loans: Loans,
    delegated: Delegations,
    resources: map<Name, Resources>,
    refunds: map<Name, Refund>,
    staked: map<Name, int>,  // the voter rows, of which only the stake matters here
    tokens: Tokens,
    now: int,                // microseconds
    log: Log)

  const LOAN_TERM: int := 30 * 24 * 3600 * 1_000_000
  const REFUND_DELAY: int := 3 * 24 * 3600 * 1_000_000

  function Sec(now: int): int {
    now / 1_000_000
  }

  function Pay(s: State, from: Name, to: Name, quantity: int, shortage: Error): Result<State> {
    var t :- Transfer(s.tokens, from, to, quantity, shortage);
    Ok(s.(tokens := t))
  }

  function ToFund(s: State, owner: Name, amount: int): Result<State> {
    var _ :- Need(0 < amount, Rejected);
    Ok(s.(funds := s.funds[owner := At(s.funds, owner) + amount]))
  }

  function Entries(m: map<Name, seq<int>>, owner: Name): seq<int> {
    if owner in m then m[owner] else []
  }

  function Credited(credits: map<Name, seq<int>>, owner: Name, filled: seq<int>): map<Name, seq<int>> {
    if filled == [] then credits else credits[owner := Entries(credits, owner) + filled]
  }

  function LogCredit(s: State, owner: Name, filled: seq<int>): State {
    s.(log := s.log.(credits := Credited(s.log.credits, owner, filled)))
  }

  /** What an account is owed, if anything, among it the proceeds of queued orders that were filled. */
  function Credit(s: State, owner: Name, amount: int, filled: seq<int>): Result<State> {
    var s := LogCredit(s, owner, filled);
    if amount > 0 then ToFund(s, owner, amount) else Ok(s)
  }

  function Record(s: State, owner: Name, reason: Reason, amount: int): State {
    s.(log := s.log.(deals := s.log.deals + [Deal(owner, reason, amount)]))
  }

  function FromFund(s: State, owner: Name, amount: int): Result<State> {
    var _ :- Need(0 < amount && owner in s.funds && amount <= s.funds[owner], Rejected);
    Ok(s.(funds := s.funds[owner := s.funds[owner] - amount]))
  }

  // ---------------------------------------------------------------------------------------------
  // Bandwidth totals and voting stakes.

  /** A delegation's row goes when nothing is left in it. */
  function PutWeights(delegated: Delegations, from: Name, to: Name, w: Weights): Delegations {
    if w == Weights(0, 0) then delegated - {Edge(from, to)} else delegated[Edge(from, to) := w]
  }

  /** An account's totals after a change; the row goes when nothing is left in it. */
  function Limits(resources: map<Name, Resources>, receiver: Name, net: int, cpu: int): Result<map<Name, Resources>> {
    if net == 0 && cpu == 0 then Ok(resources)
    else
      var _ :- Need(receiver in resources || (0 <= net && 0 <= cpu), Broken);
      var r := if receiver in resources then resources[receiver] else Resources(0, 0, 0);
      var r := r.(net := r.net + net, cpu := r.cpu + cpu);
      var _ :- Need(0 <= r.net && 0 <= r.cpu, Broken);
      Ok(if r == Resources(0, 0, 0) then resources - {receiver} else resources[receiver := r])
  }

  /** `update_resource_limits`, and the same step of `changebw`. */
  function UpdateLimits(s: State, receiver: Name, net: int, cpu: int): Result<State> {
    var resources :- Limits(s.resources, receiver, net, cpu);
    Ok(s.(resources := resources))
  }

  function LimitsOf(s: State, kind: Kind, receiver: Name, delta: int): Result<State> {
    if kind == Net then UpdateLimits(s, receiver, delta, 0) else UpdateLimits(s, receiver, 0, delta)
  }

  /** `update_voting_power`, as far as stakes go. */
  function ChangeVotes(s: State, owner: Name, delta: int): Result<State> {
    var _ :- Need(0 <= At(s.staked, owner) + delta, Rejected);
    Ok(s.(staked := s.staked[owner := At(s.staked, owner) + delta]))
  }

  // ---------------------------------------------------------------------------------------------
  // The queue of sell orders.

  /** Later than any order: the key of closed orders. */
  const LAST: real := 18446744073709551615.0

  /** `by_time`. */
  function OrderKeys(orders: map<Name, Order>): map<Name, real> {
    map o | o in orders :: if orders[o].open then orders[o].time as real else LAST
  }

  function Queue(orders: map<Name, Order>): seq<Name> {
    SortedIndex.Walk(OrderKeys(orders))
  }

  /** Whether the order at the front of the index is open. */
  function FrontOpen(orders: map<Name, Order>): bool {
    if orders == map[] then false
    else
      assert OrderKeys(orders).Keys == orders.Keys;
      orders[SortedIndex.First(OrderKeys(orders))].open
  }

  function RexAvailable(s: State): bool {
    s.pool.Some? && s.pool.value.rex > 0
  }

  /** `rex_loans_available`: only the front of the index is looked at. */
  function LoansAvailable(s: State): bool {
    RexAvailable(s) && !FrontOpen(s.orders)
  }

  function Sold(b: Balance, stake: int, rex: int): Balance {
    b.(voteStake := stake, rex := b.rex - rex, matured := b.matured - rex)
  }

  /** `fill_rex_order`: on success, the proceeds and the change of the owner's vote stake. */
  function FillOrder(s: State, owner: Name, rex: int): Result<(State, Option<(int, int)>)>
    requires owner in s.balances
  {
    var _ :- Need(s.pool.Some?, Broken);
    var p := s.pool.value;
    var filled :- Fill(p, rex);
    match filled
    case None => Ok((s, None))
    case Some((q, proceeds)) =>
      var b := s.balances[owner];
      var stake := Worth(p, b.rex) - proceeds;
      var t := s.(pool := Some(q), balances := s.balances[owner := Sold(b, stake, rex)],
                  log := s.log.(sales := s.log.sales + [Sale(owner, rex)]));
      Ok((Record(t, owner, FromSale, proceeds),
          Some((proceeds, stake - b.voteStake))))
  }

  /** A queued order is filled and closed, or stays as it is. */
  function FillQueued(s: State, owner: Name): Result<State>
    requires owner in s.orders
  {
    if owner !in s.balances then Ok(s)
    else
      var o := s.orders[owner];
      var (t, filled) :- FillOrder(s, owner, o.requested);
      match filled
      case None => Ok(t)
      case Some((proceeds, change)) =>
        Ok(t.(orders := t.orders[owner := o.(proceeds := proceeds, stakeChange := change, open := false)],
              log := t.log.(fills := t.log.fills[owner := Entries(t.log.fills, owner) + [proceeds]])))
  }

  /** Attempts the first open orders, once each, in the order the queue had at the start. */
  function FillOrders(s: State, queue: seq<Name>, max: nat): Result<State>
    decreases max
  {
    if max == 0 || queue == [] || queue[0] !in s.orders || !s.orders[queue[0]].open then Ok(s)
    else
      var t :- FillQueued(s, queue[0]);
      FillOrders(t, queue[1..], max - 1)
  }

  /** Takes a filled order off the table: its proceeds, if there is one, and what it changes the stake by. */
  function ClaimOrder(s: State, owner: Name): (State, seq<int>, int) {
    if owner in s.orders && !s.orders[owner].open then
      (s.(orders := s.orders - {owner}), [s.orders[owner].proceeds], s.orders[owner].stakeChange)
    else (s, [], 0)
  }

  function Amount(filled: seq<int>): int {
    if filled == [] then 0 else filled[0]
  }

  /** The REX an account's open order is for. */
  function InOrder(s: State, owner: Name): int {
    if owner in s.orders && s.orders[owner].open then s.orders[owner].requested else 0
  }

  /** `update_rex_account`. */
  function UpdateAccount(s: State, owner: Name, proceeds: int, stake: int, force: bool): Result<State> {
    var (s, filled, orderStake) := ClaimOrder(s, owner);
    var s :- Credit(s, owner, proceeds + Amount(filled), filled);
    if force || stake + orderStake != 0 then ChangeVotes(s, owner, stake + orderStake) else Ok(s)
  }

  // ---------------------------------------------------------------------------------------------
  // Maintenance.

  function ChannelToRex(s: State, from: Name, amount: int): Result<State> {
    if RexAvailable(s) then Pay(s.(pool := Some(Channel(s.pool.value, amount))), from, REX_ACCOUNT, amount, Rejected)
    else Ok(s)
  }

  /** Proceeds of name auctions go to the pool, or, if it is empty, out of its books. */
  function ChannelNamebids(s: State): Result<State> {
    if s.pool.Some? && s.pool.value.namebid > 0 then
      var t :- ChannelToRex(s, NAMES_ACCOUNT, s.pool.value.namebid);
      Ok(t.(pool := if t.pool.Some? then Some(t.pool.value.(namebid := 0)) else None))
    else Ok(s)
  }

  function LoanKeys(table: map<nat, Loan>): map<nat, real> {
    map n | n in table :: table[n].expiration as real
  }

  /** The loan that expires first, if it has expired. */
  function Expired(table: map<nat, Loan>, now: int): (r: Option<nat>)
    ensures r.Some? ==> r.value in table && table[r.value].expiration <= now
  {
    if table == map[] then None
    else
      assert LoanKeys(table).Keys == table.Keys;
      var n := SortedIndex.First(LoanKeys(table));
      if table[n].expiration > now then None else Some(n)
  }

  function Renew(s: State, kind: Kind, n: nat, p: Pool, rented: int): Result<State>
    requires n in s.loans.Of(kind)
  {
    var loan := s.loans.Of(kind)[n];
    var renewed := loan.(staked := rented, expiration := loan.expiration + LOAN_TERM, balance := loan.balance - loan.payment);
    var t := s.(pool := Some(AddLoan(p, loan.payment, rented, false)),
                loans := s.loans.With(kind, s.loans.Of(kind)[n := renewed]));
    LimitsOf(Record(t, loan.from, ForRenewal, loan.payment), kind, loan.receiver, rented - loan.staked)
  }

  function CloseLoan(s: State, kind: Kind, n: nat, p: Pool): Result<State>
    requires n in s.loans.Of(kind)
  {
    var loan := s.loans.Of(kind)[n];
    var s := s.(pool := Some(p), loans := s.loans.With(kind, s.loans.Of(kind) - {n}));
    var s :- Credit(s, loan.from, loan.balance, []);
    LimitsOf(s, kind, loan.receiver, -loan.staked)
  }

  /** An expired loan is renewed at today's price if it pays, and if no sell order waits. */
  function ProcessLoan(s: State, kind: Kind, n: nat): Result<State>
    requires n in s.loans.Of(kind)
  {
    var loan := s.loans.Of(kind)[n];
    var _ :- Need(s.pool.Some?, Broken);
    var p :- RemoveLoan(s.pool.value, loan.staked);
    var rented :- BancorOutput(p.rent, p.unlent, loan.payment);
    if loan.payment <= loan.balance && loan.payment < rented && LoansAvailable(s.(pool := Some(p)))
    then Renew(s, kind, n, p, rented)
    else CloseLoan(s, kind, n, p)
  }

  function ProcessLoans(s: State, kind: Kind, max: nat): Result<State>
    decreases max
  {
    var expired := Expired(s.loans.Of(kind), s.now);
    if max == 0 || expired.None? then Ok(s)
    else
      var t :- ProcessLoan(s, kind, expired.value);
      ProcessLoans(t, kind, max - 1)
  }

  /** `runrex`. */
  function RunRex(s: State, max: nat): Result<State> {
    var _ :- Need(s.pool.Some?, Rejected);
    var s :- ChannelNamebids(s);
    var s :- ProcessLoans(s, Cpu, max);
    var s :- ProcessLoans(s, Net, max);
    FillOrders(s, Queue(s.orders), max)
  }

  // ---------------------------------------------------------------------------------------------
  // Buying and selling shares.

  function HoldingOf(balances: map<Name, Balance>, owner: Name): Balance {
    if owner in balances then balances[owner] else Balance(0, 0, 0, [])
  }

  /** `add_to_rex_pool`, then `add_to_rex_balance`: also the change of the owner's vote stake. */
  function BuyIn(s: State, owner: Name, payment: int): Result<(State, int)> {
    var (q, received) :- Buy(s.pool, payment);
    var isNew := owner !in s.balances;
    var _ :- Need(isNew || q.rex != 0, Broken);
    var b := HoldingOf(s.balances, owner);
    var stake := if isNew then payment else Worth(q, b.rex + received);
    var bought := AddPurchase(b, received, Sec(s.now)).(rex := b.rex + received, voteStake := stake);
    Ok((s.(pool := Some(q), balances := s.balances[owner := bought],
           log := s.log.(purchases := s.log.purchases + [Purchase(owner, Maturity(Sec(s.now)), received)],
                         dust := if isNew && received == 0 then s.log.dust + {owner} else s.log.dust,
                         epoch := if RexAvailable(s) then s.log.epoch else s.log.epoch + 1)),
        stake - b.voteStake))
  }

  /** `check_voting_requirement`; `voted` says whether the account's ballot meets it. */
  function VotingRequirement(s: State, owner: Name, voted: bool): Result<()> {
    Need(owner in s.staked && voted, Rejected)
  }

  function BuyRex(s: State, owner: Name, amount: int, voted: bool): Result<State> {
    var _ :- Need(0 < amount, Rejected);
    var _ :- VotingRequirement(s, owner, voted);
    var s :- FromFund(s, owner, amount);
    var (s, change) :- BuyIn(Record(s, owner, ForShares, amount), owner, amount);
    var s :- RunRex(s, 2);
    UpdateAccount(s, owner, 0, change, false)
  }

  /** Bandwidth delegated to `receiver` is undelegated, its tokens moving to the exchange. */
  function TakeDelegated(s: State, owner: Name, receiver: Name, net: int, cpu: int): Result<State> {
    var k := Edge(owner, receiver);
    var _ :- Need(k in s.delegated && net <= s.delegated[k].net && cpu <= s.delegated[k].cpu, Rejected);
    var w := Weights(s.delegated[k].net - net, s.delegated[k].cpu - cpu);
    var s :- UpdateLimits(s.(delegated := PutWeights(s.delegated, owner, receiver, w)), receiver, -net, -cpu);
    Pay(s, STAKE_ACCOUNT, REX_ACCOUNT, net + cpu, Broken)
  }

  function AddDrift(s: State, owner: Name, amount: int): State {
    s.(log := s.log.(drift := s.log.drift[owner := At(s.log.drift, owner) + amount]))
  }

  /** The change of vote stake is not passed on: voting stake keeps the tokens as they were staked. */
  function UnstakeToRex(s: State, owner: Name, receiver: Name, net: int, cpu: int, voted: bool): Result<State> {
    var _ :- Need(0 <= net && 0 <= cpu && 0 < net + cpu, Rejected);
    var _ :- VotingRequirement(s, owner, voted);
    var s :- TakeDelegated(s, owner, receiver, net, cpu);
    var (s, change) :- BuyIn(s, owner, net + cpu);
    var s :- RunRex(AddDrift(s, owner, net + cpu - change), 2);
    UpdateAccount(s, owner, 0, 0, true)
  }

  function SetBalance(s: State, owner: Name, b: Balance): State {
    s.(balances := s.balances[owner := b])
  }

  /** Queues what could not be sold now, on top of what was queued before. */
  function Enqueue(s: State, owner: Name, rex: int): State {
    var o := if owner in s.orders then s.orders[owner].(requested := s.orders[owner].requested + rex)
             else Order(rex, 0, 0, s.now, true);
    s.(orders := s.orders[owner := o])
  }

  /** Fills the order at once or queues it; either way what is in the queue must be covered. */
  function SellMatured(s: State, owner: Name, rex: int): Result<State>
    requires owner in s.balances
  {
    var (s, filled) :- FillOrder(s, owner, rex);
    match filled
    case Some((proceeds, change)) =>
      var _ :- Need(proceeds != 0, Rejected);
      var s :- UpdateAccount(s, owner, proceeds, change, false);
      var _ :- Need(InOrder(s, owner) <= HoldingOf(s.balances, owner).matured, Rejected);
      Ok(s)
    case None =>
      var s :- UpdateAccount(s, owner, 0, 0, false);
      var _ :- Need(owner != B1, Rejected);
      var s := Enqueue(s, owner, rex);
      var _ :- Need(s.orders[owner].requested <= HoldingOf(s.balances, owner).matured, Rejected);
      Ok(s)
  }

  function SellRex(s: State, owner: Name, rex: int): Result<State> {
    var s :- RunRex(s, 2);
    var _ :- Need(owner in s.balances && rex > 0, Rejected);
    var b := Mature(s.balances[owner], Sec(s.now));
    var _ :- Need(rex <= b.matured, Rejected);
    SellMatured(SetBalance(s, owner, b), owner, rex)
  }

  function CancelOrder(s: State, owner: Name): Result<State> {
    var _ :- Need(owner in s.orders && s.orders[owner].open, Rejected);
    Ok(s.(orders := s.orders - {owner}))
  }

  // ---------------------------------------------------------------------------------------------
  // An account's REX between its buckets, and its value in votes.

  function SetVoteStake(s: State, owner: Name, stake: int): State
    requires owner in s.balances
  {
    SetBalance(s, owner, s.balances[owner].(voteStake := stake))
  }

  function UpdateRex(s: State, owner: Name): Result<State> {
    var s :- RunRex(s, 2);
    var _ :- Need(owner in s.balances, Rejected);
    var b := s.balances[owner];
    var stake := if RexAvailable(s) then Worth(s.pool.value, b.rex) else 0;
    var s :- UpdateAccount(SetVoteStake(s, owner, stake), owner, 0, stake - b.voteStake, true);
    Ok(SetBalance(s, owner, Mature(HoldingOf(s.balances, owner), Sec(s.now))))
  }

  /** `update_rex_stake`, before a vote is cast or a stake changes. */
  function UpdateRexStake(s: State, voter: Name): State {
    if voter in s.balances && RexAvailable(s) then
      var stake := Worth(s.pool.value, s.balances[voter].rex);
      var change := stake - s.balances[voter].voteStake;
      var t := SetVoteStake(s, voter, stake);
      if change != 0 && voter in s.staked then t.(staked := s.staked[voter := s.staked[voter] + change]) else t
    else s
  }

  function ConsolidateRex(s: State, owner: Name): Result<State> {
    var s :- RunRex(s, 2);
    var _ :- Need(owner in s.balances, Rejected);
    var inOrder := InOrder(s, owner);
    var s :- UpdateAccount(s, owner, 0, 0, false);
    Ok(SetBalance(s, owner, Consolidate(HoldingOf(s.balances, owner), inOrder, Sec(s.now))))
  }

  function MvToSavings(s: State, owner: Name, rex: int): Result<State> {
    var s :- RunRex(s, 2);
    var _ :- Need(owner in s.balances && rex > 0, Rejected);
    var inOrder := InOrder(s, owner);
    var s :- UpdateAccount(s, owner, 0, 0, false);
    var b :- MoveToSavings(HoldingOf(s.balances, owner), rex, inOrder, Sec(s.now));
    Ok(SetBalance(s, owner, b))
  }

  function MvFromSavings(s: State, owner: Name, rex: int): Result<State> {
    var s :- RunRex(s, 2);
    var _ :- Need(owner in s.balances && rex > 0, Rejected);
    var b :- MoveFromSavings(s.balances[owner], rex, Sec(s.now));
    UpdateAccount(SetBalance(s, owner, b), owner, 0, 0, false)
  }

  /** Whether an account has loans outstanding. */
  predicate Borrows(loans: Loans, owner: Name) {
    (exists n :: n in loans.cpu && loans.cpu[n].from == owner) || (exists n :: n in loans.net && loans.net[n].from == owner)
  }

  function DropFund(s: State, owner: Name): State {
    if !Borrows(s.loans, owner) && owner in s.funds && s.funds[owner] == 0 then s.(funds := s.funds - {owner}) else s
  }

  /** A balance of no REX is dropped with whatever vote stake it has left. */
  function DropBalance(s: State, owner: Name): Result<State> {
    if owner in s.balances then
      var _ :- Need(s.balances[owner].rex == 0, Rejected);
      Ok(AddDrift(s.(balances := s.balances - {owner}), owner, s.balances[owner].voteStake))
    else Ok(s)
  }

  function CloseRex(s: State, owner: Name): Result<State> {
    var s :- if s.pool.Some? then RunRex(s, 2) else Ok(s);
    var s :- UpdateAccount(s, owner, 0, 0, false);
    DropBalance(DropFund(s, owner), owner)
  }

  // ---------------------------------------------------------------------------------------------
  // Loans.

  function OpenLoan(s: State, kind: Kind, from: Name, receiver: Name, payment: int, fund: int, rented: int): Result<State>
    requires s.pool.Some?
  {
    var p := AddLoan(s.pool.value, payment, rented, true);
    var _ :- Need(p.loanNum !in s.loans.Of(kind), Broken);
    var loan := Loan(from, receiver, payment, fund, rented, s.now + LOAN_TERM);
    LimitsOf(s.(pool := Some(p), loans := s.loans.With(kind, s.loans.Of(kind)[p.loanNum := loan])), kind, receiver, rented)
  }

  function Rent(s: State, kind: Kind, from: Name, receiver: Name, payment: int, fund: int): Result<State> {
    var s :- RunRex(s, 2);
    var _ :- Need(LoansAvailable(s), Rejected);
    var _ :- Need(0 < payment && 0 <= fund, Rejected);
    var s :- FromFund(s, from, payment + fund);
    var rented :- BancorOutput(s.pool.value.rent, s.pool.value.unlent, payment);
    var _ :- Need(payment < rented, Rejected);
    OpenLoan(Record(s, from, ForRent, payment), kind, from, receiver, payment, fund, rented)
  }

  /** A loan its creator may still fund or defund. */
  predicate Current(s: State, kind: Kind, from: Name, n: nat) {
    n in s.loans.Of(kind) && s.loans.Of(kind)[n].from == from && s.loans.Of(kind)[n].expiration > s.now
  }

  function AddToLoan(s: State, kind: Kind, n: nat, amount: int): State
    requires n in s.loans.Of(kind)
  {
    var loan := s.loans.Of(kind)[n];
    s.(loans := s.loans.With(kind, s.loans.Of(kind)[n := loan.(balance := loan.balance + amount)]))
  }

  function FundLoan(s: State, kind: Kind, from: Name, n: nat, payment: int): Result<State> {
    var s :- FromFund(s, from, payment);
    var _ :- Need(Current(s, kind, from, n), Rejected);
    Ok(AddToLoan(s, kind, n, payment))
  }

  function DefundLoan(s: State, kind: Kind, from: Name, n: nat, amount: int): Result<State> {
    var _ :- Need(Current(s, kind, from, n) && amount <= s.loans.Of(kind)[n].balance, Rejected);
    ToFund(AddToLoan(s, kind, n, -amount), from, amount)
  }

  // ---------------------------------------------------------------------------------------------
  // Staking.

  /** A pending refund of one resource after a stake change: what is left of it, and what it did not cover. */
  function Draw(pending: int, delta: int): (int, int) {
    if pending - delta < 0 then (0, delta - pending) else (pending - delta, 0)
  }

  /** The refund row of an account, and the tokens its stake change still takes. */
  function Settle(refunds: map<Name, Refund>, from: Name, net: int, cpu: int, sec: int): (map<Name, Refund>, int) {
    if from in refunds then
      var r := refunds[from];
      var (netLeft, netDue) := Draw(r.net, net);
      var (cpuLeft, cpuDue) := Draw(r.cpu, cpu);
      (if netLeft == 0 && cpuLeft == 0 then refunds - {from}
       else refunds[from := Refund(if net < 0 || cpu < 0 then sec else r.time, netLeft, cpuLeft)],
       netDue + cpuDue)
    else if net < 0 || cpu < 0 then
      (refunds[from := Refund(sec, if net < 0 then -net else 0, if cpu < 0 then -cpu else 0)],
       (if net < 0 then 0 else net) + (if cpu < 0 then 0 else cpu))
    else (refunds, net + cpu)
  }

  /** Unstaking, or staking to oneself, goes through the refund; other staking takes liquid tokens. */
  function Settlement(s: State, from: Name, receiver: Name, net: int, cpu: int, transfer: bool): (map<Name, Refund>, int) {
    if (!transfer && from == receiver) || net + cpu < 0 then Settle(s.refunds, from, net, cpu, Sec(s.now))
    else (s.refunds, net + cpu)
  }

  function LogUnstaking(s: State, owner: Name, amount: int): State {
    if amount > 0 then s.(log := s.log.(unstaked := s.log.unstaked + [Unstaking(owner, s.now, amount)])) else s
  }

  function SettleStake(s: State, source: Name, from: Name, receiver: Name, net: int, cpu: int, transfer: bool): Result<State> {
    var settled := Settlement(s, from, receiver, net, cpu, transfer);
    var s := LogUnstaking(s.(refunds := settled.0), from, -(net + cpu));
    if 0 < settled.1 then Pay(s, source, STAKE_ACCOUNT, settled.1, Rejected) else Ok(s)
  }

  function Delegated(s: State, from: Name, receiver: Name, net: int, cpu: int): Result<State> {
    var k := Edge(from, receiver);
    var w := if k in s.delegated then Weights(s.delegated[k].net + net, s.delegated[k].cpu + cpu) else Weights(net, cpu);
    var _ :- Need(0 <= w.net && 0 <= w.cpu, Rejected);
    Ok(s.(delegated := PutWeights(s.delegated, from, receiver, w)))
  }

  function Abs(n: int): int {
    if n < 0 then -n else n
  }

  function ChangeBw(s: State, source: Name, receiver: Name, net: int, cpu: int, transfer: bool): Result<State> {
    var _ :- Need(net != 0 || cpu != 0, Rejected);
    var _ :- Need(Abs(net + cpu) >= Abs(net) && Abs(net + cpu) >= Abs(cpu), Rejected);
    var from := if transfer then receiver else source;
    var s :- Delegated(s, from, receiver, net, cpu);
    var s :- UpdateLimits(s, receiver, net, cpu);
    var s :- if source == STAKE_ACCOUNT then Ok(s) else SettleStake(s, source, from, receiver, net, cpu, transfer);
    ChangeVotes(UpdateRexStake(s, from), from, net + cpu)
  }

  function DelegateBw(s: State, from: Name, receiver: Name, net: int, cpu: int, transfer: bool): Result<State> {
    var _ :- Need(0 <= net && 0 <= cpu && 0 < net + cpu, Rejected);
    var _ :- Need(!transfer || from != receiver, Rejected);
    ChangeBw(s, from, receiver, net, cpu, transfer)
  }

  /** `activated` says whether enough stake has voted for the chain to be live. */
  function UndelegateBw(s: State, from: Name, receiver: Name, net: int, cpu: int, activated: bool): Result<State> {
    var _ :- Need(0 <= net && 0 <= cpu && 0 < net + cpu, Rejected);
    var _ :- Need(activated, Rejected);
    ChangeBw(s, from, receiver, -net, -cpu, false)
  }

  function ClaimRefund(s: State, owner: Name): Result<State> {
    var _ :- Need(owner in s.refunds, Rejected);
    var r := s.refunds[owner];
    var _ :- Need(r.time * 1_000_000 + REFUND_DELAY <= s.now, Rejected);
    var s :- Pay(s, STAKE_ACCOUNT, owner, r.net + r.cpu, Broken);
    Ok(s.(refunds := s.refunds - {owner},
          log := s.log.(refunded := s.log.refunded[owner := At(s.log.refunded, owner) + r.net + r.cpu])))
  }

  // ---------------------------------------------------------------------------------------------
  // Every action, and any run of them.

  datatype Action =
    | Deposit(owner: Name, amount: int)
    | Withdraw(owner: Name, amount: int)
    | ActBuyRex(owner: Name, amount: int, voted: bool)
    | ActUnstakeToRex(owner: Name, receiver: Name, net: int, cpu: int, voted: bool)
    | ActSellRex(owner: Name, rex: int)
    | ActCancelOrder(owner: Name)
    | ActRent(kind: Kind, owner: Name, receiver: Name, payment: int, fund: int)
    | ActFundLoan(kind: Kind, owner: Name, loan: nat, payment: int)
    | ActDefundLoan(kind: Kind, owner: Name, loan: nat, amount: int)
    | ActUpdateRex(owner: Name)
    | ActSetRex(owner: Name, rent: int)
    | ActRexExec(owner: Name, max: nat)
    | ActConsolidate(owner: Name)
    | ActMvToSavings(owner: Name, rex: int)
    | ActMvFromSavings(owner: Name, rex: int)
    | ActCloseRex(owner: Name)
    | ActDelegateBw(owner: Name, receiver: Name, net: int, cpu: int, transfer: bool)
    | ActUndelegateBw(owner: Name, receiver: Name, net: int, cpu: int, activated: bool)
    | ActRefund(owner: Name)
    | ActVote(owner: Name)                          // voteproducer, as far as the exchange takes part
    | ActRegister(owner: Name)                      // regproxy, creating a voter row
    | ActRam(owner: Name, bytes: nat)               // RAM bought or sold
    | ActFee(owner: Name, amount: int)              // a fee channelled from the account collecting it
    | ActNamebid(owner: Name, bid: nat)             // a name auction closed by a producer's block
    | ActTransfer(owner: Name, to: Name, amount: int)
    | ActTime(owner: Name, now: int)

  function SetRex(s: State, rent: int): Result<State> {
    var _ :- Need(rent > 0 && s.pool.Some?, Rejected);
    Ok(s.(pool := Some(s.pool.value.(rent := rent))))
  }

  function DepositTo(s: State, owner: Name, amount: int): Result<State> {
    var _ :- Need(0 < amount, Rejected);
    var s :- Pay(s, owner, REX_ACCOUNT, amount, Rejected);
    ToFund(Record(s, owner, PaidIn, amount), owner, amount)
  }

  function WithdrawFrom(s: State, owner: Name, amount: int): Result<State> {
    var _ :- Need(0 < amount, Rejected);
    var s :- UpdateAccount(s, owner, 0, 0, false);
    var s :- FromFund(s, owner, amount);
    Pay(Record(s, owner, PaidOut, amount), REX_ACCOUNT, owner, amount, Broken)
  }

  function Register(s: State, owner: Name): State {
    if owner in s.staked then s else s.(staked := s.staked[owner := 0])
  }

  function SetRam(s: State, owner: Name, bytes: nat): State {
    var r := if owner in s.resources then s.resources[owner] else Resources(0, 0, 0);
    s.(resources := s.resources[owner := r.(ram := bytes)])
  }

  /** `channel_namebid_to_rex`. */
  function AddNamebid(s: State, bid: nat): State {
    if RexAvailable(s) then s.(pool := Some(s.pool.value.(namebid := s.pool.value.namebid + bid))) else s
  }

  /** Time only moves forward, and five days from now must be a day the contract can name. */
  function Advance(s: State, now: int): Result<State> {
    var _ :- Need(s.now <= now && Maturity(Sec(now)) < END_OF_DAYS, Rejected);
    Ok(s.(now := now))
  }

  function Step(s: State, a: Action): Result<State> {
    match a
    case Deposit(owner, amount) => DepositTo(s, owner, amount)
    case Withdraw(owner, amount) => WithdrawFrom(s, owner, amount)
    case ActBuyRex(owner, amount, voted) => BuyRex(s, owner, amount, voted)
    case ActUnstakeToRex(owner, receiver, net, cpu, voted) => UnstakeToRex(s, owner, receiver, net, cpu, voted)
    case ActSellRex(owner, rex) => SellRex(s, owner, rex)
    case ActCancelOrder(owner) => CancelOrder(s, owner)
    case ActRent(kind, owner, receiver, payment, fund) => Rent(s, kind, owner, receiver, payment, fund)
    case ActFundLoan(kind, owner, loan, payment) => FundLoan(s, kind, owner, loan, payment)
    case ActDefundLoan(kind, owner, loan, amount) => DefundLoan(s, kind, owner, loan, amount)
    case ActUpdateRex(owner) => UpdateRex(s, owner)
    case ActSetRex(_, rent) => SetRex(s, rent)
    case ActRexExec(_, max) => RunRex(s, max)
    case ActConsolidate(owner) => ConsolidateRex(s, owner)
    case ActMvToSavings(owner, rex) => MvToSavings(s, owner, rex)
    case ActMvFromSavings(owner, rex) => MvFromSavings(s, owner, rex)
    case ActCloseRex(owner) => CloseRex(s, owner)
    case ActDelegateBw(owner, receiver, net, cpu, transfer) => DelegateBw(s, owner, receiver, net, cpu, transfer)
    case ActUndelegateBw(owner, receiver, net, cpu, activated) => UndelegateBw(s, owner, receiver, net, cpu, activated)
    case ActRefund(owner) => ClaimRefund(s, owner)
    case ActVote(owner) => Ok(UpdateRexStake(s, owner))
    case ActRegister(owner) => Ok(Register(s, owner))
    case ActRam(owner, bytes) => Ok(SetRam(s, owner, bytes))
    case ActFee(owner, amount) => ChannelToRex(s, owner, amount)
    case ActNamebid(_, bid) => Ok(AddNamebid(s, bid))
    case ActTransfer(owner, to, amount) => Pay(s, owner, to, amount, Rejected)
    case ActTime(_, now) => Advance(s, now)
  }

  /** An aborted action is rolled back by the chain. */
  function Run(s: State, actions: seq<Action>): State
    decreases |actions|
  {
    if actions == [] then s
    else
      var before := Run(s, actions[..|actions| - 1]);
      match Step(before, actions[|actions| - 1])
      case Ok(after) => after
      case Err(_) => before
  }

  /** A fresh chain: nothing staked, nothing in the exchange. */
  function Genesis(tokens: Tokens, now: int): State {
    State(None, map[], map[], map[], Loans(map[], map[]), map[], map[], map[], map[], tokens, now,
          Log([], [], map[], map[], [], [], map[], map[], {}, 0))
  }
}
