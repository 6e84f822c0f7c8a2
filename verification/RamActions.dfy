/** What each action on RAM comes to, in figures: when it goes through, and who is left with what. */
module RamActions {
  import opened Basics
  import opened Ledger
  import opened RamMath
  import opened RamMarket
  import opened Sums

  /** An account that is none of those RAM and its fees are paid through. */
  predicate Private(account: Name) {
    account != RAM_ACCOUNT && account != RAMFEE_ACCOUNT && account != REX_ACCOUNT
  }

  /** One account pays an amount to eosio.ram, or is paid it, and a fee to eosio.ramfee, or to eosio.rex while that is open. */
  ghost predicate Settles(before: Tokens, after: Tokens, account: Name, amount: int, fee: int, rexOpen: bool) {
    forall a ::
      At(after, a) == At(before, a) - (if a == account then amount + fee else 0) + (if a == RAM_ACCOUNT then amount else 0)
                      + (if a == (if rexOpen then REX_ACCOUNT else RAMFEE_ACCOUNT) then fee else 0)
  }

  /** The RAM released since the last supply update, at the rate set then, counted in 32 bits. */
  lemma ReleasedRam(s: RamState, slot: nat)
    ensures NewRam(s, slot)
            == if slot <= s.lastIncrease then 0 else (slot - s.lastIncrease) * s.perBlock % 4_294_967_296
    ensures UpdateSupply(s, slot)
            == s.(maxSize := s.maxSize + NewRam(s, slot), market := s.market.(base := s.market.base + NewRam(s, slot)),
                  lastIncrease := if slot <= s.lastIncrease then s.lastIncrease else slot)
  {
  }

  lemma FeeSettles(tokens: Tokens, account: Name, amount: int, fee: int, rexOpen: bool)
    requires Private(account) && 0 < fee && 0 <= At(tokens, RAMFEE_ACCOUNT)
    ensures var t := PayFee(tokens, account, fee, rexOpen);
            && (t.Ok? <==> fee <= At(tokens, account))
            && (t.Ok? ==> forall before :: Paid(before, tokens, account, amount) ==>
                  Settles(before, t.value, account, amount, fee, rexOpen))
  {
  }

  ghost predicate Paid(before: Tokens, after: Tokens, account: Name, amount: int) {
    forall a ::
      At(after, a) == At(before, a) - (if a == account then amount else 0) + (if a == RAM_ACCOUNT then amount else 0)
  }

  /** What the seller of RAM keeps: the price less half a percent rounded up. */
  lemma SellRamPays(s: RamState, account: Name, bytes: int, slot: nat, rexOpen: bool, opening: int)
    requires Books(s, opening) && Private(account) && 0 <= At(s.tokens, account) && 0 <= At(s.tokens, RAMFEE_ACCOUNT)
    ensures s.market.supply > 0 && s.market.base > 0 && s.market.quote >= 0
    ensures var released := if slot <= s.lastIncrease then 0 else (slot - s.lastIncrease) * s.perBlock % 4_294_967_296;
            var r := Step(s, ActSellRam(account, bytes, slot, rexOpen));
            && (r.Ok? <==> 0 < bytes <= At(s.users, account)
                           && Traded(s.market.supply, s.market.base + released, s.market.quote, bytes) > 1)
            && (r.Ok? ==>
                  var out := Traded(s.market.supply, s.market.base + released, s.market.quote, bytes);
                  && Settles(s.tokens, r.value.tokens, account, -out, (out + 199) / 200, rexOpen)
                  && (forall a :: At(r.value.users, a) == At(s.users, a) - (if a == account then bytes else 0))
                  && r.value.market == Market(s.market.supply, s.market.base + released + bytes, s.market.quote - out)
                  && r.value.maxSize == s.maxSize + released && r.value.perBlock == s.perBlock)
  {
    hide Convert, UpdateSupply, PayFee, Traded, Sum, Books;
    ReleasedRam(s, slot);
    BooksOf(s, opening);
    UpdateKeepsBooks(s, slot, opening);
    var u := UpdateSupply(s, slot);
    BooksOf(u, opening);
    SellKeepsBooks(s, account, bytes, slot, rexOpen, opening);
    if 0 < bytes <= At(u.users, account) {
      ConvertIsTrade(u.market, Ram, bytes, Core);
      var out := Traded(u.market.supply, u.market.base, u.market.quote, bytes);
      if out > 1 {
        assert u.stake - out >= 0;
        var t := Transfer(u.tokens, RAM_ACCOUNT, account, out, Broken);
        FeeSettles(t.value, account, -out, (out + 199) / 200, rexOpen);
        assert Paid(u.tokens, t.value, account, -out);
      }
    }
  }

  lemma BooksOf(s: RamState, opening: int)
    requires Books(s, opening)
    ensures s.market.supply > 0 && s.market.base > 0 && s.market.quote >= 0 && At(s.tokens, RAM_ACCOUNT) == s.stake
  {
    StakeNonNegative(s, opening);
  }

  /** What the buyer of RAM pays in all is the amount named, half a percent of it, rounded up, as the fee. */
  lemma BuyRamPays(s: RamState, payer: Name, receiver: Name, quant: int, slot: nat, rexOpen: bool, opening: int)
    requires Books(s, opening) && Private(payer) && 0 <= At(s.tokens, RAMFEE_ACCOUNT)
    ensures s.market.supply > 0 && s.market.base > 0 && s.market.quote >= 0
    ensures var released := if slot <= s.lastIncrease then 0 else (slot - s.lastIncrease) * s.perBlock % 4_294_967_296;
            var net := quant - (quant + 199) / 200;
            var r := Step(s, ActBuyRam(payer, receiver, quant, slot, rexOpen));
            && (quant >= 2 ==> net > 0)
            && (r.Ok? <==> 2 <= quant <= At(s.tokens, payer)
                           && Traded(s.market.supply, s.market.quote, s.market.base + released, net) > 0)
            && (r.Ok? ==>
                  var bytes := Traded(s.market.supply, s.market.quote, s.market.base + released, net);
                  && Settles(s.tokens, r.value.tokens, payer, net, (quant + 199) / 200, rexOpen)
                  && At(r.value.tokens, payer) == At(s.tokens, payer) - quant
                  && (forall a :: At(r.value.users, a) == At(s.users, a) + (if a == receiver then bytes else 0))
                  && r.value.market == Market(s.market.supply, s.market.base + released - bytes, s.market.quote + net)
                  && r.value.maxSize == s.maxSize + released && r.value.perBlock == s.perBlock)
  {
    hide Convert, UpdateSupply, PayFee, Traded, Sum, Books;
    ReleasedRam(s, slot);
    BooksOf(s, opening);
    UpdateKeepsBooks(s, slot, opening);
    var u := UpdateSupply(s, slot);
    BooksOf(u, opening);
    var net, fee := quant - (quant + 199) / 200, (quant + 199) / 200;
    if quant >= 2 {
      ConvertIsTrade(u.market, Core, net, Ram);
      var t := Transfer(u.tokens, payer, RAM_ACCOUNT, net, Rejected);
      if t.Ok? {
        FeeSettles(t.value, payer, net, fee, rexOpen);
        assert Paid(u.tokens, t.value, payer, net);
      }
    }
  }

  /** A purchase by bytes is one for what selling them would yield before any RAM is released. */
  lemma BytesAreQuoted(s: RamState, payer: Name, receiver: Name, bytes: nat, slot: nat, rexOpen: bool, opening: int)
    requires Books(s, opening)
    ensures s.market.supply > 0 && s.market.base > 0 && s.market.quote >= 0
    ensures Step(s, ActBuyRamBytes(payer, receiver, bytes, slot, rexOpen))
            == Step(s, ActBuyRam(payer, receiver, Traded(s.market.supply, s.market.base, s.market.quote, bytes), slot, rexOpen))
  {
    hide Convert, Traded, BuyRam, Books, Sum;
    BooksOf(s, opening);
    ConvertIsTrade(s.market, Ram, bytes, Core);
  }

  /** A new rate applies from now on: what was released at the old one goes on sale first. */
  lemma RateChanges(s: RamState, rate: nat, slot: nat)
    ensures var released := if slot <= s.lastIncrease then 0 else (slot - s.lastIncrease) * s.perBlock % 4_294_967_296;
            Step(s, ActSetRamRate(rate, slot)).Ok?
            && var t := Step(s, ActSetRamRate(rate, slot)).value;
            && t.perBlock == rate && t.lastIncrease >= slot && t.lastIncrease >= s.lastIncrease
            && t.maxSize == s.maxSize + released && t.market == s.market.(base := s.market.base + released)
            && (forall later: nat :: later > t.lastIncrease ==>
                  NewRam(t, later) == (later - t.lastIncrease) * rate % 4_294_967_296)
            && t.users == s.users && t.tokens == s.tokens && t.reserved == s.reserved && t.stake == s.stake
  {
  }

  /** More RAM can be put on sale, at most a pebibyte in all; none can be taken off sale. */
  lemma LimitGrows(s: RamState, size: int)
    ensures var r := Step(s, ActSetRam(size));
            && (r.Ok? <==> s.maxSize < size < 1_125_899_906_842_624 && s.reserved < size)
            && (r.Ok? ==>
                  && r.value.maxSize == size && r.value.market.base - s.market.base == size - s.maxSize > 0
                  && r.value == s.(maxSize := size, market := s.market.(base := r.value.market.base)))
  {
  }

  /** `init` opens the market with all RAM for sale, against a thousandth of the token supply. */
  lemma MarketOpens(maxSize: int, tokenSupply: int, tokens: Tokens)
    ensures var r := Init(maxSize, tokenSupply, tokens);
            && (r.Ok? <==> tokenSupply > 0)
            && (r.Ok? ==>
                  && r.value.market == Market(100_000_000_000_000, maxSize, tokenSupply / 1000)
                  && r.value.maxSize == maxSize && r.value.users == map[] && r.value.tokens == tokens
                  && r.value.reserved == 0 && r.value.stake == 0 && r.value.perBlock == 0 && r.value.lastIncrease == 0)
  {
  }
}
