/** The RAM market as the contract runs it: objects changed in place, refining RamMarket. */
module RamContract {
  import opened Basics
  import opened Ledger
  import RamMath
  import Spec = RamMarket

  /** The relay. */
  class ExchangeState {
    var supply: int
    var base: int
    var quote: int

    ghost function Value(): Spec.Market
      reads this
    {
      Spec.Market(supply, base, quote)
    }

    constructor (supply: int, base: int, quote: int)
      ensures Value() == Spec.Market(supply, base, quote)
    {
      this.supply, this.base, this.quote := supply, base, quote;
    }

    method ConvertToExchange(side: Spec.Symbol, paid: int) returns (outcome: Outcome, issued: int)
      requires side != Spec.RamCore
      modifies this
      ensures match Spec.ToExchange(old(Value()), side, paid)
              case Ok((m, n)) => outcome == Done && Value() == m && issued == n
              case Err(e) => outcome == Aborted(e)
    {
      outcome := Done;
      issued := 0;
      var held := if side == Spec.Ram then base else quote;
      :- Check(supply >= 0 && held >= 0 && paid >= 0 && held + paid > 0, Broken);
      issued := RamMath.Issued(supply, held, paid);
      supply := supply + issued;
      if side == Spec.Ram {
        base := base + paid;
      } else {
        quote := quote + paid;
      }
    }

    method ConvertFromExchange(side: Spec.Symbol, retired: int) returns (outcome: Outcome, out: int)
      requires side != Spec.RamCore
      modifies this
      ensures match Spec.FromExchange(old(Value()), side, retired)
              case Ok((m, n)) => outcome == Done && Value() == m && out == n
              case Err(e) => outcome == Aborted(e)
    {
      outcome := Done;
      out := 0;
      var held := if side == Spec.Ram then base else quote;
      :- Check(retired >= 0 && supply - retired > 0 && held >= 0, Broken);
      out := RamMath.Redeemed(supply - retired, held, retired);
      supply := supply - retired;
      if side == Spec.Ram {
        base := base - out;
      } else {
        quote := quote - out;
      }
    }

    /** At most two hops: after the first the asset is RAMCORE. */
    method ConvertAsset(from: Spec.Asset, to: Spec.Symbol) returns (outcome: Outcome, result: Spec.Asset)
      modifies this
      ensures match Spec.Convert(old(Value()), from, to)
              case Ok((m, a)) => outcome == Done && Value() == m && result == a
              case Err(e) => outcome == Aborted(e)
      decreases if from.symbol == Spec.RamCore then 0 else 1
    {
      outcome := Done;
      result := from;
      if from.symbol != Spec.RamCore {
        var issued :- ConvertToExchange(from.symbol, from.amount);
        result := Spec.Asset(issued, Spec.RamCore);
      } else {
        :- Check(to != Spec.RamCore, Rejected);
        var out :- ConvertFromExchange(to, from.amount);
        result := Spec.Asset(out, to);
      }
      if to != result.symbol {
        result :- ConvertAsset(result, to);
      }
    }
  }

  class RamSystem {
    const market: ExchangeState
    var maxSize: int
    var reserved: int
    var stake: int
    var users: map<Name, int>
    var tokens: Tokens
    var lastIncrease: nat
    var perBlock: nat

    ghost function Value(): Spec.RamState
      reads this, market
    {
      Spec.RamState(market.Value(), maxSize, reserved, stake, users, tokens, lastIncrease, perBlock)
    }

    /** `init` on a fresh chain. */
    constructor (maxSize: int, tokenSupply: int, tokens: Tokens)
      requires tokenSupply > 0
      ensures fresh(market)
      ensures Spec.Init(maxSize, tokenSupply, tokens) == Ok(Value())
    {
      this.market := new ExchangeState(RamMath.RAMCORE_SUPPLY, maxSize, tokenSupply / 1000);
      this.maxSize, reserved, stake, users := maxSize, 0, 0, map[];
      this.tokens, lastIncrease, perBlock := tokens, 0, 0;
    }

    method UpdateRamSupply(slot: nat)
      modifies this, market
      ensures Value() == Spec.UpdateSupply(old(Value()), slot)
    {
      if slot <= lastIncrease {
        return;
      }
      var newRam := (slot - lastIncrease) * perBlock % 0x1_0000_0000;
      maxSize := maxSize + newRam;
      market.base := market.base + newRam;
      lastIncrease := slot;
    }

    method Transfer(from: Name, to: Name, quantity: int, shortage: Error) returns (outcome: Outcome)
      modifies this`tokens
      ensures match Ledger.Transfer(old(tokens), from, to, quantity, shortage)
              case Ok(t) => outcome == Done && tokens == t
              case Err(e) => outcome == Aborted(e)
    {
      outcome := Done;
      :- Check(from != to && quantity > 0, Rejected);
      :- Check(quantity <= At(tokens, from), shortage);
      tokens := tokens[from := At(tokens, from) - quantity];
      tokens := tokens[to := At(tokens, to) + quantity];
    }

    method PayFee(payer: Name, fee: int, rexOpen: bool) returns (outcome: Outcome)
      modifies this`tokens
      ensures match Spec.PayFee(old(tokens), payer, fee, rexOpen)
              case Ok(t) => outcome == Done && tokens == t
              case Err(e) => outcome == Aborted(e)
    {
      outcome := Done;
      if fee > 0 {
        :- Transfer(payer, RAMFEE_ACCOUNT, fee, Rejected);
        if rexOpen {
          :- Transfer(RAMFEE_ACCOUNT, REX_ACCOUNT, fee, Rejected);
        }
      }
    }

    method BuyRam(payer: Name, receiver: Name, quant: int, slot: nat, rexOpen: bool) returns (outcome: Outcome)
      modifies this, market
      ensures match Spec.BuyRam(old(Value()), payer, receiver, quant, slot, rexOpen)
              case Ok(s) => outcome == Done && Value() == s
              case Err(e) => outcome == Aborted(e)
    {
      outcome := Done;
      hide Spec.Convert, Spec.PayFee, Ledger.Transfer, Spec.UpdateSupply;
      UpdateRamSupply(slot);
      :- Check(quant > 0, Rejected);
      var fee := (quant + 199) / 200;
      var paid := quant - fee;
      :- Transfer(payer, RAM_ACCOUNT, paid, Rejected);
      :- PayFee(payer, fee, rexOpen);
      var bytes :- market.ConvertAsset(Spec.Asset(paid, Spec.Core), Spec.Ram);
      :- Check(bytes.amount > 0, Rejected);
      reserved := reserved + bytes.amount;
      stake := stake + paid;
      users := users[receiver := At(users, receiver) + bytes.amount];
    }

    method BuyRamBytes(payer: Name, receiver: Name, bytes: nat, slot: nat, rexOpen: bool) returns (outcome: Outcome)
      modifies this, market
      ensures match Spec.BuyRamBytes(old(Value()), payer, receiver, bytes, slot, rexOpen)
              case Ok(s) => outcome == Done && Value() == s
              case Err(e) => outcome == Aborted(e)
    {
      outcome := Done;
      var copy := new ExchangeState(market.supply, market.base, market.quote);
      var cost :- copy.ConvertAsset(Spec.Asset(bytes, Spec.Ram), Spec.Core);
      outcome := BuyRam(payer, receiver, cost.amount, slot, rexOpen);
    }

    method SellRam(account: Name, bytes: int, slot: nat, rexOpen: bool) returns (outcome: Outcome)
      modifies this, market
      ensures match Spec.SellRam(old(Value()), account, bytes, slot, rexOpen)
              case Ok(s) => outcome == Done && Value() == s
              case Err(e) => outcome == Aborted(e)
    {
      outcome := Done;
      hide Spec.Convert, Spec.PayFee, Ledger.Transfer, Spec.UpdateSupply;
      UpdateRamSupply(slot);
      :- Check(bytes > 0, Rejected);
      :- Check(account in users && users[account] >= bytes, Rejected);
      var out :- market.ConvertAsset(Spec.Asset(bytes, Spec.Ram), Spec.Core);
      :- Check(out.amount > 1, Rejected);
      reserved := reserved - bytes;
      stake := stake - out.amount;
      :- Check(stake >= 0, Broken);
      users := users[account := users[account] - bytes];
      :- Transfer(RAM_ACCOUNT, account, out.amount, Broken);
      :- PayFee(account, (out.amount + 199) / 200, rexOpen);
    }

    method SetRam(size: int) returns (outcome: Outcome)
      modifies this, market
      ensures match Spec.SetRam(old(Value()), size)
              case Ok(s) => outcome == Done && Value() == s
              case Err(e) => outcome == Aborted(e)
    {
      outcome := Done;
      :- Check(maxSize < size, Rejected);
      :- Check(size < Spec.RAM_LIMIT, Rejected);
      :- Check(size > reserved, Rejected);
      market.base := market.base + (size - maxSize);
      maxSize := size;
    }

    method SetRamRate(rate: nat, slot: nat)
      modifies this, market
      ensures Value() == Spec.SetRamRate(old(Value()), rate, slot)
    {
      UpdateRamSupply(slot);
      perBlock := rate;
    }
  }
}
