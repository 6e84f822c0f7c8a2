/** The RAM market: the relay's state, and the books the system contract keeps around it. */
module RamMarket {
  import opened Basics
  import opened Ledger
  import opened RamMath
  import opened Sums

  datatype Symbol = RamCore | Ram | Core

  datatype Asset = Asset(amount: int, symbol: Symbol)

  /** RAMCORE in supply, and the balances of the two connectors. */
  datatype Market = Market(supply: int, base: int, quote: int)
  {
    function Balance(side: Symbol): int
      requires side != RamCore
    {
      if side == Ram then base else quote
    }

    function With(side: Symbol, balance: int, newSupply: int): Market
      requires side != RamCore
    {
      if side == Ram then Market(newSupply, balance, quote) else Market(newSupply, base, balance)
    }
  }

  /** First hop. Outside the domain of the real-valued formula the result means nothing. */
  function ToExchange(m: Market, side: Symbol, paid: int): Result<(Market, int)>
    requires side != RamCore
  {
    if m.supply < 0 || m.Balance(side) < 0 || paid < 0 || m.Balance(side) + paid == 0 then Err(Broken)
    else
      var issued := Issued(m.supply, m.Balance(side), paid);
      Ok((m.With(side, m.Balance(side) + paid, m.supply + issued), issued))
  }

  /** Second hop. */
  function FromExchange(m: Market, side: Symbol, retired: int): Result<(Market, int)>
    requires side != RamCore
  {
    if retired < 0 || m.supply - retired <= 0 || m.Balance(side) < 0 then Err(Broken)
    else
      var out := Redeemed(m.supply - retired, m.Balance(side), retired);
      Ok((m.With(side, m.Balance(side) - out, m.supply - retired), out))
  }

  function Convert(m: Market, from: Asset, to: Symbol): Result<(Market, Asset)>
    decreases if from.symbol == RamCore then 0 else 1
  {
    if from.symbol != RamCore then
      var (n, issued) :- ToExchange(m, from.symbol, from.amount);
      if to != RamCore then Convert(n, Asset(issued, RamCore), to) else Ok((n, Asset(issued, RamCore)))
    else if to == RamCore then Err(Rejected)
    else
      var (n, out) :- FromExchange(m, to, from.amount);
      Ok((n, Asset(out, to)))
  }

  /** Selling one connector's asset for the other's is the two-hop trade, and restores the supply. */
  lemma ConvertIsTrade(m: Market, from: Symbol, paid: nat, to: Symbol)
    requires from != RamCore && to != RamCore && from != to
    requires m.supply > 0 && m.base >= 0 && m.quote >= 0 && m.Balance(from) + paid > 0
    ensures var out := Traded(m.supply, m.Balance(from), m.Balance(to), paid);
            Convert(m, Asset(paid, from), to) ==
            Ok((m.With(from, m.Balance(from) + paid, m.supply).With(to, m.Balance(to) - out, m.supply), Asset(out, to)))
  {
    hide Issued, Redeemed;
    IssuedNonNegative(m.supply, m.Balance(from), paid);
  }

  // ---------------------------------------------------------------------------------------------
  // The books: RAM for sale, RAM sold, and the tokens staked for it.

  datatype RamState = RamState(
    market: Market,
    maxSize: int,         // max_ram_size
    reserved: int,        // total_ram_bytes_reserved
    stake: int,           // total_ram_stake
    users: map<Name, int>, // ram_bytes of each user_resources row
    tokens: Tokens,
    lastIncrease: nat,    // slot of last_ram_increase
    perBlock: nat)        // new_ram_per_block

  /** RAM that the passing of blocks adds; the contract multiplies in 32 bits. */
  function NewRam(s: RamState, slot: nat): nat {
    if slot <= s.lastIncrease then 0 else (slot - s.lastIncrease) * s.perBlock % 0x1_0000_0000
  }

  function UpdateSupply(s: RamState, slot: nat): RamState {
    if slot <= s.lastIncrease then s
    else
      s.(maxSize := s.maxSize + NewRam(s, slot),
         market := s.market.(base := s.market.base + NewRam(s, slot)),
         lastIncrease := slot)
  }

  /** Half a percent, rounded up. */
  function Fee(amount: int): int {
    (amount + 199) / 200
  }

  /** A fee goes to the fee account, and on to the resource exchange while that is open. */
  function PayFee(tokens: Tokens, payer: Name, fee: int, rexOpen: bool): Result<Tokens> {
    if fee <= 0 then Ok(tokens)
    else
      var t :- Transfer(tokens, payer, RAMFEE_ACCOUNT, fee, Rejected);
      if rexOpen then Transfer(t, RAMFEE_ACCOUNT, REX_ACCOUNT, fee, Rejected) else Ok(t)
  }

  function BuyRam(s: RamState, payer: Name, receiver: Name, quant: int, slot: nat, rexOpen: bool): Result<RamState> {
    var s := UpdateSupply(s, slot);
    var _ :- Need(quant > 0, Rejected);
    var paid := quant - Fee(quant);
    var t :- Transfer(s.tokens, payer, RAM_ACCOUNT, paid, Rejected);
    var t :- PayFee(t, payer, Fee(quant), rexOpen);
    var (m, bytes) :- Convert(s.market, Asset(paid, Core), Ram);
    var _ :- Need(bytes.amount > 0, Rejected);
    Ok(s.(tokens := t, market := m,
          reserved := s.reserved + bytes.amount,
          stake := s.stake + paid,
          users := s.users[receiver := At(s.users, receiver) + bytes.amount]))
  }

  /** The price is quoted for selling the bytes, on a copy of the market taken before any supply update. */
  function BuyRamBytes(s: RamState, payer: Name, receiver: Name, bytes: nat, slot: nat, rexOpen: bool): Result<RamState> {
    var (_, cost) :- Convert(s.market, Asset(bytes, Ram), Core);
    BuyRam(s, payer, receiver, cost.amount, slot, rexOpen)
  }

  function SellRam(s: RamState, account: Name, bytes: int, slot: nat, rexOpen: bool): Result<RamState> {
    var s := UpdateSupply(s, slot);
    var _ :- Need(bytes > 0, Rejected);
    var _ :- Need(account in s.users && s.users[account] >= bytes, Rejected);
    var (m, out) :- Convert(s.market, Asset(bytes, Ram), Core);
    var _ :- Need(out.amount > 1, Rejected);
    var _ :- Need(s.stake - out.amount >= 0, Broken);
    var t :- Transfer(s.tokens, RAM_ACCOUNT, account, out.amount, Broken);
    var t :- PayFee(t, account, Fee(out.amount), rexOpen);
    Ok(s.(tokens := t, market := m,
          reserved := s.reserved - bytes,
          stake := s.stake - out.amount,
          users := s.users[account := s.users[account] - bytes]))
  }

  const RAM_LIMIT: int := 1024 * 1024 * 1024 * 1024 * 1024

  function SetRam(s: RamState, size: int): Result<RamState> {
    var _ :- Need(s.maxSize < size < RAM_LIMIT && size > s.reserved, Rejected);
    Ok(s.(maxSize := size, market := s.market.(base := s.market.base + (size - s.maxSize))))
  }

  function SetRamRate(s: RamState, rate: nat, slot: nat): RamState {
    UpdateSupply(s, slot).(perBlock := rate)
  }

  /** The market as `init` opens it on a fresh chain. */
  function Init(maxSize: int, tokenSupply: int, tokens: Tokens): Result<RamState> {
    var _ :- Need(tokenSupply > 0, Rejected);
    Ok(RamState(Market(RAMCORE_SUPPLY, maxSize, tokenSupply / 1000), maxSize, 0, 0, map[], tokens, 0, 0))
  }

  datatype Action =
    | ActBuyRam(payer: Name, receiver: Name, quant: int, slot: nat, rexOpen: bool)
    | ActBuyRamBytes(payer: Name, receiver: Name, bytes: nat, slot: nat, rexOpen: bool)
    | ActSellRam(account: Name, amount: int, slot: nat, rexOpen: bool)
    | ActSetRam(size: int)
    | ActSetRamRate(rate: nat, slot: nat)

  function Step(s: RamState, a: Action): Result<RamState> {
    match a
    case ActBuyRam(payer, receiver, quant, slot, rexOpen) => BuyRam(s, payer, receiver, quant, slot, rexOpen)
    case ActBuyRamBytes(payer, receiver, bytes, slot, rexOpen) => BuyRamBytes(s, payer, receiver, bytes, slot, rexOpen)
    case ActSellRam(account, amount, slot, rexOpen) => SellRam(s, account, amount, slot, rexOpen)
    case ActSetRam(size) => SetRam(s, size)
    case ActSetRamRate(rate, slot) => Ok(SetRamRate(s, rate, slot))
  }

  /** An aborted action is rolled back by the chain. */
  function Run(s: RamState, actions: seq<Action>): RamState
    decreases |actions|
  {
    if actions == [] then s
    else
      var before := Run(s, actions[..|actions| - 1]);
      match Step(before, actions[|actions| - 1])
      case Ok(after) => after
      case Err(_) => before
  }

  // ---------------------------------------------------------------------------------------------
  // What every run keeps.

  function Bytes(owner: Name, bytes: int): int {
    bytes
  }

  /** The books balance; `opening` is the quote connector's balance when the market opened. */
  ghost predicate Books(s: RamState, opening: int) {
    && s.market.supply == RAMCORE_SUPPLY
    && s.market.base > 0
    && s.market.base + s.reserved == s.maxSize
    && (forall a :: a in s.users ==> s.users[a] >= 0)
    && Sum(s.users, Bytes) == s.reserved
    && s.market.quote == opening + s.stake
    && At(s.tokens, RAM_ACCOUNT) == s.stake
    // No trade and no supply increase lowers the connectors' product below its opening price.
    && opening * s.maxSize <= s.market.base * s.market.quote
    && 0 <= opening
  }

  /** The tokens staked for RAM are never negative: whoever sells RAM can be paid. */
  lemma StakeNonNegative(s: RamState, opening: int)
    requires Books(s, opening)
    ensures s.stake >= 0 && s.reserved >= 0 && s.market.quote >= 0
  {
    SumBounds(s.users, Bytes);
    Scale(opening, s.market.base, s.maxSize);
    assert opening * s.market.base <= s.market.quote * s.market.base;
    CancelLeq(s.market.base, opening, s.market.quote);
  }

  lemma SupplyKeepsBooks(s: RamState, extra: nat, opening: int)
    requires Books(s, opening)
    ensures Books(s.(maxSize := s.maxSize + extra, market := s.market.(base := s.market.base + extra)), opening)
  {
    StakeNonNegative(s, opening);
    Scale(extra, opening, s.market.quote);
    assert opening * (s.maxSize + extra) == opening * s.maxSize + opening * extra;
    assert (s.market.base + extra) * s.market.quote == s.market.base * s.market.quote + s.market.quote * extra;
  }

  lemma UpdateKeepsBooks(s: RamState, slot: nat, opening: int)
    requires Books(s, opening)
    ensures Books(UpdateSupply(s, slot), opening)
  {
    SupplyKeepsBooks(s, NewRam(s, slot), opening);
  }

  lemma PayFeeSparesRam(tokens: Tokens, payer: Name, fee: int, rexOpen: bool)
    requires payer != RAM_ACCOUNT
    ensures var r := PayFee(tokens, payer, fee, rexOpen);
            && r != Err(Broken)
            && (r.Ok? ==> At(r.value, RAM_ACCOUNT) == At(tokens, RAM_ACCOUNT))
  {
  }

  /** A trade keeps the connectors' product and the market's part of the books. */
  lemma TradeKeepsProduct(m: Market, from: Symbol, to: Symbol, paid: nat, opening: nat, maxSize: nat)
    requires from != RamCore && to != RamCore && from != to
    requires m.supply == RAMCORE_SUPPLY && m.base > 0 && m.quote >= 0 && m.Balance(from) + paid > 0
    requires opening * maxSize <= m.base * m.quote
    ensures var out := Traded(m.supply, m.Balance(from), m.Balance(to), paid);
            var n := m.With(from, m.Balance(from) + paid, m.supply).With(to, m.Balance(to) - out, m.supply);
            && Convert(m, Asset(paid, from), to) == Ok((n, Asset(out, to)))
            && out >= 0 && n.base > 0 && n.quote >= 0
            && opening * maxSize <= n.base * n.quote
  {
    hide Convert, Traded;
    ConvertIsTrade(m, from, paid, to);
    TradedAtMost(m.supply, m.Balance(from), m.Balance(to), paid);
    ProductGrows(m.supply, m.Balance(from), m.Balance(to), paid);
    if to == Ram {
      NeverEmptied(m.Balance(from), m.Balance(to), paid);
    }
    var out := Traded(m.supply, m.Balance(from), m.Balance(to), paid);
    Commute(m.Balance(from), m.Balance(to));
    Commute(m.Balance(from) + paid, m.Balance(to) - out);
  }

  lemma Commute(a: int, b: int)
    ensures a * b == b * a
  {
  }

  lemma BuyKeepsBooks(s: RamState, payer: Name, receiver: Name, quant: int, slot: nat, rexOpen: bool, opening: int)
    requires Books(s, opening)
    ensures var r := BuyRam(s, payer, receiver, quant, slot, rexOpen);
            r != Err(Broken) && (r.Ok? ==> Books(r.value, opening))
  {
    hide Convert, UpdateSupply, PayFee, Sum;
    UpdateKeepsBooks(s, slot, opening);
    var u := UpdateSupply(s, slot);
    StakeNonNegative(u, opening);
    var paid := quant - Fee(quant);
    var t := Transfer(u.tokens, payer, RAM_ACCOUNT, paid, Rejected);
    if quant > 0 && t.Ok? {
      PayFeeSparesRam(t.value, payer, Fee(quant), rexOpen);
      TradeKeepsProduct(u.market, Core, Ram, paid, opening, u.maxSize);
      var bytes := Convert(u.market, Asset(paid, Core), Ram).value.1.amount;
      SumPut(u.users, Bytes, receiver, At(u.users, receiver) + bytes);
    }
  }

  lemma BuyBytesKeepsBooks(s: RamState, payer: Name, receiver: Name, bytes: nat, slot: nat, rexOpen: bool, opening: int)
    requires Books(s, opening)
    ensures var r := BuyRamBytes(s, payer, receiver, bytes, slot, rexOpen);
            r != Err(Broken) && (r.Ok? ==> Books(r.value, opening))
  {
    StakeNonNegative(s, opening);
    ConvertIsTrade(s.market, Ram, bytes, Core);
    BuyKeepsBooks(s, payer, receiver, Traded(s.market.supply, s.market.base, s.market.quote, bytes), slot, rexOpen, opening);
  }

  lemma SellKeepsBooks(s: RamState, account: Name, bytes: int, slot: nat, rexOpen: bool, opening: int)
    requires Books(s, opening)
    ensures var r := SellRam(s, account, bytes, slot, rexOpen);
            r != Err(Broken) && (r.Ok? ==> Books(r.value, opening))
  {
    hide Convert, UpdateSupply, PayFee, Sum;
    UpdateKeepsBooks(s, slot, opening);
    var u := UpdateSupply(s, slot);
    StakeNonNegative(u, opening);
    if bytes > 0 && account in u.users && u.users[account] >= bytes {
      TradeKeepsProduct(u.market, Ram, Core, bytes, opening, u.maxSize);
      var (m, a) := Convert(u.market, Asset(bytes, Ram), Core).value;
      var out := a.amount;
      SumPut(u.users, Bytes, account, u.users[account] - bytes);
      // The books that would result balance, so the stake they record is not negative.
      var after := u.(market := m, reserved := u.reserved - bytes, stake := u.stake - out,
                      tokens := map[RAM_ACCOUNT := u.stake - out],
                      users := u.users[account := u.users[account] - bytes]);
      StakeNonNegative(after, opening);
      var t := Transfer(u.tokens, RAM_ACCOUNT, account, out, Broken);
      if t.Ok? {
        PayFeeSparesRam(t.value, account, Fee(out), rexOpen);
      }
    }
  }

  /** No action breaks the books, and none ever fails one of the contract's own safety checks. */
  lemma StepKeepsBooks(s: RamState, a: Action, opening: int)
    requires Books(s, opening)
    ensures Step(s, a) != Err(Broken)
    ensures Step(s, a).Ok? ==> Books(Step(s, a).value, opening)
  {
    match a
    case ActBuyRam(payer, receiver, quant, slot, rexOpen) => BuyKeepsBooks(s, payer, receiver, quant, slot, rexOpen, opening);
    case ActBuyRamBytes(payer, receiver, bytes, slot, rexOpen) => BuyBytesKeepsBooks(s, payer, receiver, bytes, slot, rexOpen, opening);
    case ActSellRam(account, amount, slot, rexOpen) => SellKeepsBooks(s, account, amount, slot, rexOpen, opening);
    case ActSetRam(size) => if s.maxSize < size { SupplyKeepsBooks(s, size - s.maxSize, opening); }
    case ActSetRamRate(rate, slot) => UpdateKeepsBooks(s, slot, opening);
  }

  /** From the opening of the market on, the books balance after any sequence of actions. */
  lemma {:induction false} RunKeepsBooks(maxSize: int, tokenSupply: int, tokens: Tokens, actions: seq<Action>)
    requires maxSize > 0 && tokenSupply > 0 && At(tokens, RAM_ACCOUNT) == 0
    ensures var s := Run(Init(maxSize, tokenSupply, tokens).value, actions);
            Books(s, tokenSupply / 1000) && s.stake >= 0
    decreases |actions|
  {
    var s := Init(maxSize, tokenSupply, tokens).value;
    if actions == [] {
      assert tokenSupply / 1000 * maxSize == maxSize * (tokenSupply / 1000);
    } else {
      RunKeepsBooks(maxSize, tokenSupply, tokens, actions[..|actions| - 1]);
      StepKeepsBooks(Run(s, actions[..|actions| - 1]), actions[|actions| - 1], tokenSupply / 1000);
    }
    StakeNonNegative(Run(s, actions), tokenSupply / 1000);
  }

  // ---------------------------------------------------------------------------------------------
  // Buying a number of bytes.

  /** Bytes that a `buyrambytes` delivers: what the receiver's quota grows by. */
  function Delivered(s: RamState, payer: Name, receiver: Name, bytes: nat, slot: nat, rexOpen: bool): int {
    match BuyRamBytes(s, payer, receiver, bytes, slot, rexOpen)
    case Ok(t) => At(t.users, receiver) - At(s.users, receiver)
    case Err(_) => 0
  }

  /** A purchase that goes through is a trade of the payment less the fee, at the grown supply. */
  lemma BoughtIsTrade(s: RamState, payer: Name, receiver: Name, cost: int, slot: nat, rexOpen: bool, opening: int)
    requires Books(s, opening)
    requires BuyRam(s, payer, receiver, cost, slot, rexOpen).Ok?
    ensures var u := UpdateSupply(s, slot);
            && cost - Fee(cost) > 0 && u.market.supply > 0 && u.market.quote >= 0 && u.market.base > 0
            && At(BuyRam(s, payer, receiver, cost, slot, rexOpen).value.users, receiver) - At(s.users, receiver)
               == Traded(u.market.supply, u.market.quote, u.market.base, cost - Fee(cost))
  {
    UpdateKeepsBooks(s, slot, opening);
    var u := UpdateSupply(s, slot);
    StakeNonNegative(u, opening);
    ConvertIsTrade(u.market, Core, cost - Fee(cost), Ram);
  }

  /** What a purchase delivers, measured against the request and the RAM released since the quote. */
  lemma DeliveredBound(s: RamState, payer: Name, receiver: Name, bytes: nat, slot: nat, rexOpen: bool, opening: int)
    requires Books(s, opening)
    ensures Delivered(s, payer, receiver, bytes, slot, rexOpen) * (s.market.base + 2 * bytes)
         <= bytes * (s.market.base + NewRam(s, slot))
  {
    hide BuyRam, Traded, Convert, Sum;
    StakeNonNegative(s, opening);
    ConvertIsTrade(s.market, Ram, bytes, Core);
    var cost := Traded(s.market.supply, s.market.base, s.market.quote, bytes);
    if BuyRam(s, payer, receiver, cost, slot, rexOpen).Ok? {
      TradedAtMost(s.market.supply, s.market.base, s.market.quote, bytes);
      BoughtIsTrade(s, payer, receiver, cost, slot, rexOpen, opening);
      var u := UpdateSupply(s, slot);
      var paid := cost - Fee(cost);
      TradedAtMost(u.market.supply, u.market.quote, u.market.base, paid);
      Scale(s.market.base + bytes, paid, cost);
      DeliveredAlgebra(s.market.base, s.market.quote, u.market.base, bytes, paid,
                       Traded(u.market.supply, u.market.quote, u.market.base, paid));
    } else {
      Scale(s.market.base + NewRam(s, slot), 0, bytes);
    }
  }

  lemma DeliveredAlgebra(base: nat, quote: nat, grown: nat, bytes: nat, paid: nat, out: nat)
    requires base > 0 && quote + paid > 0
    requires paid * (base + bytes) <= quote * bytes
    requires out * (quote + paid) <= grown * paid
    ensures out * (base + 2 * bytes) <= bytes * grown
  {
    var w := base + 2 * bytes;
    assert paid * w <= bytes * (quote + paid);
    calc {
      out * w * (quote + paid);
      out * (quote + paid) * w;
    <= { Scale(w, out * (quote + paid), grown * paid); }
      grown * paid * w;
      paid * w * grown;
    <= { Scale(grown, paid * w, bytes * (quote + paid)); }
      bytes * (quote + paid) * grown;
      bytes * grown * (quote + paid);
    }
    CancelLeq(quote + paid, out * w, bytes * grown);
  }

  /**
   A buyer of bytes never gets more than asked for, as long as the RAM released since the last
   update is at most twice the request.
   */
  lemma DeliversAtMostRequested(s: RamState, payer: Name, receiver: Name, bytes: nat, slot: nat, rexOpen: bool, opening: int)
    requires Books(s, opening)
    requires NewRam(s, slot) <= 2 * bytes
    ensures Delivered(s, payer, receiver, bytes, slot, rexOpen) <= bytes
  {
    DeliveredBound(s, payer, receiver, bytes, slot, rexOpen, opening);
    Cap(Delivered(s, payer, receiver, bytes, slot, rexOpen), bytes, s.market.base + NewRam(s, slot), s.market.base + 2 * bytes);
  }

  /** What a request for bytes is quoted, less the fee. */
  function QuotedNet(s: RamState, bytes: nat): int
    requires s.market.supply > 0 && s.market.base > 0 && s.market.quote >= 0
  {
    var cost := Traded(s.market.supply, s.market.base, s.market.quote, bytes);
    cost - Fee(cost)
  }

  /** Whether an account can pay a price, the fee included; neither of the market's own accounts can. */
  predicate CanPay(tokens: Tokens, payer: Name, cost: int) {
    payer != RAM_ACCOUNT && payer != RAMFEE_ACCOUNT && cost <= At(tokens, payer)
  }

  /** A purchase for a positive net price goes through if it can be paid and buys at least a byte. */
  lemma PurchaseOkIff(s: RamState, payer: Name, receiver: Name, cost: int, slot: nat, rexOpen: bool, opening: int)
    requires Books(s, opening) && 0 <= At(s.tokens, RAMFEE_ACCOUNT)
    ensures var u := UpdateSupply(s, slot);
            && 0 <= u.market.quote && 0 <= u.market.base && 0 < u.market.supply
            && (0 < cost - Fee(cost) ==>
                  (BuyRam(s, payer, receiver, cost, slot, rexOpen).Ok?
                   <==> CanPay(s.tokens, payer, cost)
                        && 0 < Traded(u.market.supply, u.market.quote, u.market.base, cost - Fee(cost))))
  {
    hide Convert, Traded, Sum;
    UpdateKeepsBooks(s, slot, opening);
    var u := UpdateSupply(s, slot);
    StakeNonNegative(u, opening);
    if 0 < cost - Fee(cost) {
      PaymentOkIff(u.tokens, payer, cost, rexOpen);
      ConvertIsTrade(u.market, Core, cost - Fee(cost), Ram);
    }
  }

  lemma PaymentOkIff(tokens: Tokens, payer: Name, cost: int, rexOpen: bool)
    requires 0 < cost - Fee(cost) && 0 <= At(tokens, RAMFEE_ACCOUNT)
    ensures var t := Transfer(tokens, payer, RAM_ACCOUNT, cost - Fee(cost), Rejected);
            (t.Ok? && PayFee(t.value, payer, Fee(cost), rexOpen).Ok?) <==> CanPay(tokens, payer, cost)
  {
  }

  /**
   Exactly which purchases deliver more than asked for, from figures known before the call: those that
   can be paid and whose net payment reaches one byte more against the RAM for sale once the release
   is added.
   */
  lemma DeliversMoreIff(s: RamState, payer: Name, receiver: Name, bytes: nat, slot: nat, rexOpen: bool, opening: int)
    requires Books(s, opening) && 0 <= At(s.tokens, RAMFEE_ACCOUNT)
    ensures s.market.quote >= 0
    ensures Delivered(s, payer, receiver, bytes, slot, rexOpen) > bytes
            <==> && CanPay(s.tokens, payer, Traded(s.market.supply, s.market.base, s.market.quote, bytes))
                 && QuotedNet(s, bytes) > 0
                 && Reaches(s.market.supply, s.market.quote, s.market.base + NewRam(s, slot), QuotedNet(s, bytes), bytes + 1)
  {
    hide Convert, Traded, Reaches, BuyRam, Fee, Sum, CanPay;
    StakeNonNegative(s, opening);
    ConvertIsTrade(s.market, Ram, bytes, Core);
    var cost := Traded(s.market.supply, s.market.base, s.market.quote, bytes);
    if cost - Fee(cost) > 0 {
      PurchaseOkIff(s, payer, receiver, cost, slot, rexOpen, opening);
      TradedReaches(s.market.supply, s.market.quote, s.market.base + NewRam(s, slot), cost - Fee(cost), bytes + 1);
    }
    if BuyRam(s, payer, receiver, cost, slot, rexOpen).Ok? {
      BoughtIsTrade(s, payer, receiver, cost, slot, rexOpen, opening);
    }
  }

  /**
   In plain figures: those whose net payment, traded at constant product against the grown supply, is
   worth two bytes more; and none whose payment is worth less than one byte more.
   */
  lemma DeliversMoreBand(s: RamState, payer: Name, receiver: Name, bytes: nat, slot: nat, rexOpen: bool, opening: int)
    requires Books(s, opening) && s.market.quote >= 0
    requires BuyRamBytes(s, payer, receiver, bytes, slot, rexOpen).Ok?
    ensures var paid, grown := QuotedNet(s, bytes), s.market.base + NewRam(s, slot);
            && paid > 0
            && (grown * paid / (s.market.quote + paid) <= bytes ==>
                  Delivered(s, payer, receiver, bytes, slot, rexOpen) <= bytes)
            && (3 * grown <= s.market.supply && grown * paid / (s.market.quote + paid) >= bytes + 2 ==>
                  Delivered(s, payer, receiver, bytes, slot, rexOpen) > bytes)
  {
    ConvertIsTrade(s.market, Ram, bytes, Core);
    var cost := Traded(s.market.supply, s.market.base, s.market.quote, bytes);
    BoughtIsTrade(s, payer, receiver, cost, slot, rexOpen, opening);
    var u := UpdateSupply(s, slot);
    var paid := cost - Fee(cost);
    TradedAtMost(u.market.supply, u.market.quote, u.market.base, paid);
    if 3 * u.market.base <= u.market.supply {
      TradedAtLeast(u.market.supply, u.market.quote, u.market.base, paid);
    }
  }

  lemma Cap(delivered: int, bytes: nat, grown: nat, bound: nat)
    requires bound > 0 && grown <= bound && delivered * bound <= bytes * grown
    ensures delivered <= bytes
  {
    Scale(bytes, grown, bound);
    CancelLeq(bound, delivered, bytes);
  }

  /** A purchase that is affordable and not negligible goes through. */
  lemma AffordablePurchase(s: RamState, buyer: Name, cost: int, slot: nat, opening: int)
    requires Books(s, opening)
    requires buyer != RAM_ACCOUNT && buyer != RAMFEE_ACCOUNT
    requires 0 < cost - Fee(cost) && cost <= At(s.tokens, buyer)
    ensures var u := UpdateSupply(s, slot);
            && 0 <= u.market.quote && 0 <= u.market.base && 0 < u.market.supply
            && (Traded(u.market.supply, u.market.quote, u.market.base, cost - Fee(cost)) > 0
                ==> BuyRam(s, buyer, buyer, cost, slot, false).Ok?)
  {
    UpdateKeepsBooks(s, slot, opening);
    var u := UpdateSupply(s, slot);
    StakeNonNegative(u, opening);
    var t := Transfer(u.tokens, buyer, RAM_ACCOUNT, cost - Fee(cost), Rejected);
    assert t.Ok? && At(t.value, buyer) >= Fee(cost);
    assert PayFee(t.value, buyer, Fee(cost), false).Ok?;
    ConvertIsTrade(u.market, Core, cost - Fee(cost), Ram);
  }

  /** On a fresh chain, the rate set in some slot. */
  lemma FreshChain(maxSize: int, tokenSupply: int, tokens: Tokens, rate: nat, slot: nat)
    requires maxSize > 0 && tokenSupply > 0 && At(tokens, RAM_ACCOUNT) == 0
    ensures var s := Run(Init(maxSize, tokenSupply, tokens).value, [ActSetRamRate(rate, slot)]);
            && Books(s, tokenSupply / 1000)
            && s.market == Market(RAMCORE_SUPPLY, maxSize, tokenSupply / 1000)
            && s.tokens == tokens && s.perBlock == rate && s.lastIncrease == slot
  {
    var s := Init(maxSize, tokenSupply, tokens).value;
    var actions := [ActSetRamRate(rate, slot)];
    assert actions[..0] == [];
    assert Run(s, actions[..0]) == s;
    RunKeepsBooks(maxSize, tokenSupply, tokens, actions);
  }

  /** A chain of 64 GiB and the usual token supply, just opened, its rate then set to the largest. */
  ghost predicate FreshAtLargestRate(s: RamState, tokens: Tokens, slot: nat) {
    && At(tokens, RAM_ACCOUNT) == 0
    && s == Run(Init(68_719_476_736, 100_000_000_000_000, tokens).value, [ActSetRamRate(65_535, slot)])
  }

  lemma QuoteFor1000Bytes(supply: nat, base: nat, quote: nat, bytes: nat)
    requires supply == RAMCORE_SUPPLY && base == 68_719_476_736 && quote == 100_000_000_000 && bytes == 1000
    ensures 1454 <= Traded(supply, base, quote, bytes) <= 1455
  {
    TradedAtMost(supply, base, quote, bytes);
    TradedAtLeast(supply, base, quote, bytes);
    QuotePinned(base, quote, bytes, Traded(supply, base, quote, bytes));
  }

  lemma QuotePinned(base: nat, quote: nat, bytes: nat, out: int)
    requires base == 68_719_476_736 && quote == 100_000_000_000 && bytes == 1000
    requires out <= quote * bytes / (base + bytes) <= out + 1
    ensures 1454 <= out <= 1455
  {
  }

  lemma BytesForQuote(supply: nat, quote: nat, base: nat, paid: nat)
    requires supply == RAMCORE_SUPPLY && base == 72_979_251_736 && quote == 100_000_000_000 && 1446 <= paid
    ensures Traded(supply, quote, base, paid) > 1000
  {
    TradedAtLeast(supply, quote, base, paid);
    DivLargest(base * paid, quote + paid, 1002);
  }

  /**
   ... and may get more when more RAM than that is released, because the price is quoted before the
   release and the purchase made after it. On a fresh chain with 64 GiB, nine hours of releases at
   the largest rate, whenever that was set, make a request for 1000 bytes deliver over 1000.
   */
  lemma DeliversMoreThanRequested(s: RamState, buyer: Name, bytes: nat, start: nat, slot: nat)
    requires exists tokens: Tokens :: FreshAtLargestRate(s, tokens, start) && At(tokens, buyer) >= 1_000_000
    requires buyer != RAM_ACCOUNT && buyer != RAMFEE_ACCOUNT
    requires bytes == 1000 && slot - start == 65_000
    ensures Delivered(s, buyer, buyer, bytes, slot, false) > bytes
  {
    var tokens: Tokens :| FreshAtLargestRate(s, tokens, start) && At(tokens, buyer) >= 1_000_000;
    FreshChain(68_719_476_736, 100_000_000_000_000, tokens, 65_535, start);
    FreshFiguresDeliverMore(s, buyer, bytes, slot);
  }

  lemma FreshFiguresDeliverMore(s: RamState, buyer: Name, bytes: nat, slot: nat)
    requires Books(s, s.market.quote) && At(s.tokens, buyer) >= 1_000_000
    requires s.market.base == 68_719_476_736 && s.market.quote == 100_000_000_000
    requires s.perBlock == 65_535 && slot - s.lastIncrease == 65_000
    requires buyer != RAM_ACCOUNT && buyer != RAMFEE_ACCOUNT
    requires bytes == 1000
    ensures Delivered(s, buyer, buyer, bytes, slot, false) > bytes
  {
    assert NewRam(s, slot) == 4_259_775_000;
    ConvertIsTrade(s.market, Ram, bytes, Core);
    QuoteFor1000Bytes(s.market.supply, s.market.base, s.market.quote, bytes);
    var cost := Traded(s.market.supply, s.market.base, s.market.quote, bytes);
    var u := UpdateSupply(s, slot);
    BytesForQuote(u.market.supply, u.market.quote, u.market.base, cost - Fee(cost));
    AffordablePurchase(s, buyer, cost, slot, s.market.quote);
    BoughtIsTrade(s, buyer, buyer, cost, slot, false, s.market.quote);
  }
}
