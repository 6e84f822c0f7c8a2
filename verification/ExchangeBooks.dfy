/**
 The books of the exchange: what its tables must agree on. Each book is a statement about a few
 tables only, and says what it says also in the middle of an action, of which a `Context` tells
 what is still to be entered.
 */
module ExchangeBooks {
  import opened Basics
  import opened Ledger
  import opened RexPool
  import opened RexBalance
  import opened Exchange
  import opened Sums

  // ---------------------------------------------------------------------------------------------
  // What is summed.

  function StakedOf(n: nat, l: Loan): int {
    l.staked
  }

  function LoanFundOf(n: nat, l: Loan): int {
    l.balance
  }

  function StakedTo(r: Name): (nat, Loan) -> int {
    (n: nat, l: Loan) => if l.receiver == r then l.staked else 0
  }

  function AmountOf(owner: Name, amount: int): int {
    amount
  }

  function ProceedsOf(owner: Name, o: Order): int {
    if o.open then 0 else o.proceeds
  }

  function RexOf(owner: Name, b: Balance): int {
    b.rex
  }

  function To(kind: Kind, r: Name): (Edge, Weights) -> int {
    if kind == Net then (k: Edge, w: Weights) => if k.to == r then w.net else 0
    else (k: Edge, w: Weights) => if k.to == r then w.cpu else 0
  }

  function From(a: Name): (Edge, Weights) -> int {
    (k: Edge, w: Weights) => if k.from == a then w.net + w.cpu else 0
  }

  function BothOf(k: Edge, w: Weights): int {
    w.net + w.cpu
  }

  function RefundOf(owner: Name, r: Refund): int {
    r.net + r.cpu
  }

  ghost function Lent(loans: Loans): int {
    Sum(loans.cpu, StakedOf) + Sum(loans.net, StakedOf)
  }

  ghost function LoanFunds(loans: Loans): int {
    Sum(loans.cpu, LoanFundOf) + Sum(loans.net, LoanFundOf)
  }

  function Lendable(pool: Option<Pool>): int {
    if pool.Some? then pool.value.lendable else 0
  }

  function RexIn(pool: Option<Pool>): int {
    if pool.Some? then pool.value.rex else 0
  }

  function Limit(resources: map<Name, Resources>, kind: Kind, r: Name): int {
    if r !in resources then 0 else if kind == Net then resources[r].net else resources[r].cpu
  }

  function StakeOf(balances: map<Name, Balance>, owner: Name): int {
    HoldingOf(balances, owner).voteStake
  }

  /** The change of stake a filled order still holds. */
  function HeldBack(orders: map<Name, Order>, owner: Name): int {
    if owner in orders && !orders[owner].open then orders[owner].stakeChange else 0
  }

  /** The proceeds a filled order still holds. */
  function Unclaimed(orders: map<Name, Order>, owner: Name): seq<int> {
    if owner in orders && !orders[owner].open then [orders[owner].proceeds] else []
  }

  function SoldBy(sales: seq<Sale>, owner: Name): int {
    if sales == [] then 0
    else
      var last := sales[|sales| - 1];
      SoldBy(sales[..|sales| - 1], owner) + (if last.owner == owner then last.amount else 0)
  }

  /** The REX an account bought that matured, or will mature, by a given time. */
  function BoughtBy(purchases: seq<Purchase>, owner: Name, due: int): int {
    if purchases == [] then 0
    else
      var last := purchases[|purchases| - 1];
      BoughtBy(purchases[..|purchases| - 1], owner, due) + (if last.owner == owner && last.maturity <= due then last.amount else 0)
  }

  // ---------------------------------------------------------------------------------------------
  // The books.

  predicate LoanOk(l: Loan) {
    0 < l.payment < l.staked && 0 <= l.balance
  }

  predicate LoansOk(table: map<nat, Loan>, loanNum: nat) {
    forall n :: n in table ==> LoanOk(table[n]) && n <= loanNum
  }

  /** The loan pool is sound, and what it has lent is what is staked in open loans. */
  ghost predicate PoolOk(pool: Option<Pool>, loans: Loans) {
    match pool
    case None => loans.cpu == map[] && loans.net == map[]
    case Some(p) =>
      && Balanced(p)
      && p.lent == Lent(loans)
      && LoansOk(loans.cpu, p.loanNum) && LoansOk(loans.net, p.loanNum)
  }

  /** Unless the pool was filled anew since, a share is worth no less than it was. */
  predicate Later(before: Option<Pool>, epoch: nat, after: Option<Pool>, laterEpoch: nat) {
    && epoch <= laterEpoch
    && (before.Some? ==> Balanced(before.value))
    && (epoch == laterEpoch && before.Some? ==> after.Some? && NoCheaper(before.value, after.value))
  }

  /** What the exchange owes: to the pool, to funds, to loan funds, to sellers whose order was filled. */
  ghost function Owed(pool: Option<Pool>, funds: map<Name, int>, loans: Loans, orders: map<Name, Order>): int {
    Lendable(pool) + Sum(funds, AmountOf) + LoanFunds(loans) + Sum(orders, ProceedsOf)
  }

  ghost predicate Solvent(
    pool: Option<Pool>, funds: map<Name, int>, loans: Loans, orders: map<Name, Order>, tokens: Tokens, money: int)
  {
    At(tokens, REX_ACCOUNT) == Owed(pool, funds, loans, orders) + money
  }

  predicate FundsOk(funds: map<Name, int>) {
    forall a :: a in funds ==> 0 <= funds[a]
  }

  /** All shares are held by someone, soundly partitioned. */
  ghost predicate HoldingsOk(shares: int, balances: map<Name, Balance>, now: int) {
    && Sum(balances, RexOf) == shares
    && forall a :: a in balances ==> Partitioned(balances[a], Sec(now))
  }

  predicate OrderOk(o: Order, now: int) {
    if o.open then 0 < o.requested && o.time <= now else 0 <= o.proceeds
  }

  predicate OrdersOk(orders: map<Name, Order>, balances: map<Name, Balance>, now: int) {
    forall a :: a in orders ==> a in balances && OrderOk(orders[a], now)
  }

  /** An open order is for REX its owner could sell. */
  predicate Covered(orders: map<Name, Order>, balances: map<Name, Balance>, selling: Option<Name>) {
    forall a :: a in orders && orders[a].open && selling != Some(a) ==> orders[a].requested <= HoldingOf(balances, a).matured
  }

  predicate DelegationsOk(delegated: Delegations) {
    forall k :: k in delegated ==> 0 <= delegated[k].net && 0 <= delegated[k].cpu
  }

  /** What an account's bandwidth comes from. */
  ghost function Sources(delegated: Delegations, loans: Loans, kind: Kind, r: Name): int {
    Sum(delegated, To(kind, r)) + Sum(loans.Of(kind), StakedTo(r))
  }

  ghost predicate AgreeAt(resources: map<Name, Resources>, delegated: Delegations, loans: Loans, kind: Kind, r: Name) {
    Limit(resources, kind, r) == Sources(delegated, loans, kind, r)
  }

  /** An account's bandwidth is what is delegated to it and what loans rent for it. */
  ghost predicate Agree(resources: map<Name, Resources>, delegated: Delegations, loans: Loans) {
    forall kind, r :: AgreeAt(resources, delegated, loans, kind, r)
  }

  /** The tokens staked are those delegated and those waiting for refund. */
  ghost predicate StakeBacked(tokens: Tokens, delegated: Delegations, refunds: map<Name, Refund>) {
    && At(tokens, STAKE_ACCOUNT) == Sum(delegated, BothOf) + Sum(refunds, RefundOf)
    && forall a :: a in refunds ==> 0 <= refunds[a].net && 0 <= refunds[a].cpu
  }

  ghost predicate TrackedAt(
    staked: map<Name, int>, delegated: Delegations, balances: map<Name, Balance>, orders: map<Name, Order>,
    drift: map<Name, int>, voter: Name, stake: int, a: Name)
  {
    At(staked, a) + (if a == voter then stake else 0)
    == Sum(delegated, From(a)) + StakeOf(balances, a) - HeldBack(orders, a) + At(drift, a)
  }

  /** An account votes with what it delegates and with what its REX was last worth, but for drift. */
  ghost predicate Tracked(
    staked: map<Name, int>, delegated: Delegations, balances: map<Name, Balance>, orders: map<Name, Order>,
    drift: map<Name, int>, voter: Name, stake: int)
  {
    && balances.Keys <= staked.Keys
    && forall a :: TrackedAt(staked, delegated, balances, orders, drift, voter, stake, a)
  }

  predicate Dated(purchases: seq<Purchase>, sec: int) {
    forall i :: 0 <= i < |purchases| ==> purchases[i].maturity <= Maturity(sec) && 0 <= purchases[i].amount
  }

  /** What an account has sold, and could sell by any given time, it bought to mature by then. */
  predicate OnTime(b: Balance, owner: Name, purchases: seq<Purchase>, sales: seq<Sale>, sec: int) {
    && SoldBy(sales, owner) + b.rex == BoughtBy(purchases, owner, END_OF_DAYS)
    && (forall due :: sec <= due < END_OF_DAYS ==>
          SoldBy(sales, owner) + Sellable(b, due) <= BoughtBy(purchases, owner, due))
  }

  ghost predicate NoEarlySale(balances: map<Name, Balance>, purchases: seq<Purchase>, sales: seq<Sale>, now: int) {
    && Dated(purchases, Sec(now))
    && forall a :: OnTime(HoldingOf(balances, a), a, purchases, sales, Sec(now))
  }

  ghost predicate CreditedAt(
    orders: map<Name, Order>, fills: map<Name, seq<int>>, credits: map<Name, seq<int>>, voter: Name, filled: seq<int>, a: Name)
  {
    Entries(fills, a) == Entries(credits, a) + (if a == voter then filled else []) + Unclaimed(orders, a)
  }

  /** Every filled order is credited once: all but the one not yet claimed, in the order filled. */
  ghost predicate CreditedOnce(
    orders: map<Name, Order>, fills: map<Name, seq<int>>, credits: map<Name, seq<int>>, voter: Name, filled: seq<int>)
  {
    forall a :: CreditedAt(orders, fills, credits, voter, filled, a)
  }

  /** Only a first purchase of nothing leaves vote stake without REX. */
  predicate NoDust(balances: map<Name, Balance>, dust: set<Name>) {
    forall a :: a in balances && balances[a].rex == 0 && a !in dust ==> balances[a].voteStake == 0
  }

  predicate ClockOk(now: int) {
    0 <= now && Maturity(Sec(now)) < END_OF_DAYS
  }

  // ---------------------------------------------------------------------------------------------

  /**
   The middle of an action: tokens already in the exchange's account, or taken from a fund, that no
   table accounts for yet; a voter's stake still to be changed; the proceeds of its filled order, off
   the table but not in its fund yet; whether it is selling REX its open order may need; and the pool
   when the action began.
   */
  datatype Context = Context(
    money: int, voter: Name, stake: int, filled: seq<int>, selling: bool, pool: Option<Pool>, epoch: nat)

  function Seller(c: Context): Option<Name> {
    if c.selling then Some(c.voter) else None
  }

  ghost predicate Sound(s: State, c: Context) {
    && PoolOk(s.pool, s.loans)
    && Later(c.pool, c.epoch, s.pool, s.log.epoch)
    && Solvent(s.pool, s.funds, s.loans, s.orders, s.tokens, c.money)
    && FundsOk(s.funds)
    && HoldingsOk(RexIn(s.pool), s.balances, s.now)
    && OrdersOk(s.orders, s.balances, s.now)
    && Covered(s.orders, s.balances, Seller(c))
    && DelegationsOk(s.delegated)
    && Agree(s.resources, s.delegated, s.loans)
    && StakeBacked(s.tokens, s.delegated, s.refunds)
    && Tracked(s.staked, s.delegated, s.balances, s.orders, s.log.drift, c.voter, c.stake)
    && NoEarlySale(s.balances, s.log.purchases, s.log.sales, s.now)
    && CreditedOnce(s.orders, s.log.fills, s.log.credits, c.voter, c.filled)
    && NoDust(s.balances, s.log.dust)
    && ClockOk(s.now)
  }

  /** A transition that never trips over the contract's own bookkeeping, and leaves the books sound. */
  ghost predicate Keeps(r: Result<State>, c: Context) {
    r != Err(Broken) && r != Err(Endless) && (r.Ok? ==> Sound(r.value, c))
  }

  /** Between actions nothing is pending. */
  function Idle(s: State, voter: Name): Context {
    Context(0, voter, 0, [], false, s.pool, s.log.epoch)
  }

  ghost predicate Steady(s: State) {
    Sound(s, Idle(s, 0))
  }

  /** With nothing pending it does not matter for whom. */
  lemma AnyVoter(s: State, c: Context, voter: Name)
    requires Sound(s, c) && c.stake == 0 && c.filled == [] && !c.selling
    ensures Sound(s, c.(voter := voter))
  {
    hide PoolOk, Later, Solvent, HoldingsOk, OrdersOk, Agree, StakeBacked, NoEarlySale, NoDust, Covered, FundsOk,
         DelegationsOk;
    forall a
      ensures TrackedAt(s.staked, s.delegated, s.balances, s.orders, s.log.drift, voter, 0, a)
    {
      assert TrackedAt(s.staked, s.delegated, s.balances, s.orders, s.log.drift, c.voter, 0, a);
    }
    forall a
      ensures CreditedAt(s.orders, s.log.fills, s.log.credits, voter, [], a)
    {
      assert CreditedAt(s.orders, s.log.fills, s.log.credits, c.voter, [], a);
    }
  }

  /** The pool at the start of an action is as good as itself. */
  lemma LaterSelf(pool: Option<Pool>, loans: Loans, epoch: nat)
    requires PoolOk(pool, loans)
    ensures Later(pool, epoch, pool, epoch)
  {
  }

  lemma LaterChain(before: Option<Pool>, epoch: nat, p: Pool, middle: nat, q: Pool)
    requires Later(before, epoch, Some(p), middle)
    requires Balanced(p) && Balanced(q) && NoCheaper(p, q)
    ensures Later(before, epoch, Some(q), middle)
  {
    if epoch == middle && before.Some? {
      NoCheaperChain(before.value, p, q);
    }
  }
}
