/**
 The REX pool: shares priced by floor division, and a two-connector market in which tokens held
 by the pool are lent out against rent.
 */
module RexPool {
  import opened Basics

  datatype Pool = Pool(
    lent: int,      // total_lent
    unlent: int,    // total_unlent
    rent: int,      // total_rent
    lendable: int,  // total_lendable
    rex: int,       // total_rex
    namebid: int,   // namebid_proceeds
    loanNum: nat)   // loan_num

  const REX_RATIO: int := 10_000
  const INIT_RENT: int := 200_000_000

  /** `get_bancor_output`, truncating the exact quotient. */
  function BancorOutput(conin: int, conout: int, incoming: int): Result<int> {
    var product, total := incoming * conout, incoming + conin;
    var _ :- Need(total != 0, Broken);
    Ok(if product >= 0 && total > 0 then product / total
       else if product <= 0 && total < 0 then -product / -total
       else 0)
  }

  function AddLoan(p: Pool, payment: int, rented: int, isNew: bool): Pool {
    var unlent, lent := p.unlent - rented + payment, p.lent + rented;
    p.(rent := p.rent + payment, unlent := unlent, lent := lent, lendable := unlent + lent,
       loanNum := if isNew then p.loanNum + 1 else p.loanNum)
  }

  function RemoveLoan(p: Pool, staked: int): Result<Pool> {
    var rent :- BancorOutput(p.unlent, p.rent, staked);
    var unlent, lent := p.unlent + staked, p.lent - staked;
    Ok(p.(rent := p.rent - rent, unlent := unlent, lent := lent, lendable := unlent + lent))
  }

  /** The tokens an amount of REX stands for. */
  function Worth(p: Pool, rex: int): int
    requires p.rex != 0
  {
    rex * p.lendable / p.rex
  }

  /** Shares issued for a payment: at a fixed ratio into an empty pool, else at the present price. */
  function Buy(pool: Option<Pool>, payment: int): Result<(Pool, int)> {
    var first := payment * REX_RATIO;
    match pool
    case None => Ok((Pool(0, payment, INIT_RENT, payment, first, 0, 0), first))
    case Some(p) =>
      if p.rex <= 0 then
        Ok((p.(lendable := payment, lent := 0, unlent := payment, rent := INIT_RENT, rex := first), first))
      else
        var _ :- Need(p.lendable > 0, Broken);
        var lendable := p.lendable + payment;
        var rex := lendable * p.rex / p.lendable;
        var _ :- Need(lendable - p.lent >= 0, Broken);
        Ok((p.(lendable := lendable, rex := rex, unlent := lendable - p.lent), rex - p.rex))
  }

  /** What a sale would yield, if enough of the pool is not lent out: a fifth of what is lent stays. */
  function Fill(p: Pool, rex: int): Result<Option<(Pool, int)>> {
    var _ :- Need(p.rex != 0, Broken);
    var proceeds := Worth(p, rex);
    if proceeds <= p.unlent - 2 * p.lent / 10 then
      var lendable := p.lendable - proceeds;
      Ok(Some((p.(rex := p.rex - rex, lendable := lendable, unlent := lendable - p.lent), proceeds)))
    else Ok(None)
  }

  /** `channel_to_rex`: fees that belong to all holders alike. */
  function Channel(p: Pool, amount: int): Pool {
    p.(unlent := p.unlent + amount, lendable := p.lendable + amount)
  }

  // ---------------------------------------------------------------------------------------------

  /** What the pool's own numbers always satisfy. */
  predicate Balanced(p: Pool) {
    && p.lendable == p.unlent + p.lent
    && p.unlent >= 0 && p.lent >= 0 && p.rent >= 0 && p.namebid >= 0
    && 0 <= p.rex <= REX_RATIO * p.lendable
    && (p.rex == 0 ==> p.lendable == 0)
  }

  /** The product of the two connectors. */
  function Product(p: Pool): int {
    p.rent * p.unlent
  }

  /** A share of `b` is worth no less than one of `a`; an empty pool stays empty. */
  predicate NoCheaper(a: Pool, b: Pool) {
    (a.rex == 0 ==> b.rex == 0) && b.lendable * a.rex >= a.lendable * b.rex
  }

  lemma NoCheaperChain(a: Pool, b: Pool, c: Pool)
    requires Balanced(a) && Balanced(b) && Balanced(c)
    requires NoCheaper(a, b) && NoCheaper(b, c)
    ensures NoCheaper(a, c)
  {
    if b.rex > 0 {
      Chain(a.lendable, a.rex, b.lendable, b.rex, c.lendable, c.rex);
    }
  }

  lemma Chain(s0: int, r0: int, s1: int, r1: int, s2: int, r2: int)
    requires s0 >= 0 && r0 >= 0 && s1 >= 0 && r1 > 0 && s2 >= 0 && r2 >= 0
    requires s1 * r0 >= s0 * r1 && s2 * r1 >= s1 * r2
    ensures s2 * r0 >= s0 * r2
  {
    assert s2 * r1 * r0 >= s1 * r2 * r0 by { Scale(s2 * r1, s1 * r2, r0); }
    assert s1 * r0 * r2 >= s0 * r1 * r2 by { Scale(s1 * r0, s0 * r1, r2); }
    assert r1 * (s2 * r0 - s0 * r2) == s2 * r1 * r0 - s0 * r1 * r2;
    assert s1 * r2 * r0 == s1 * r0 * r2;
    if s2 * r0 < s0 * r2 {
      Scale(-1, s2 * r0 - s0 * r2, r1);
    }
  }

  lemma Scale(a: int, b: int, c: int)
    requires a >= b && c >= 0
    ensures a * c >= b * c
  {
  }

  /** A quotient's floor. */
  lemma Floor(a: int, b: int)
    requires b > 0
    ensures a / b * b <= a < a / b * b + b
    ensures a >= 0 ==> a / b >= 0
  {
  }

  lemma Quotient(a: int, b: int, c: int)
    requires b > 0 && c * b <= a < c * b + b
    ensures a / b == c
  {
    Floor(a, b);
    AtLeast(a, b, c);
    if a / b >= c + 1 {
      Scale(a / b, c + 1, b);
    }
  }

  lemma AtMost(a: int, b: int, c: int)
    requires b > 0 && a <= c * b
    ensures a / b <= c
  {
    if a / b >= c + 1 {
      Scale(a / b, c + 1, b);
    }
  }

  lemma AtLeast(a: int, b: int, c: int)
    requires b > 0 && a >= c * b
    ensures a / b >= c
  {
    if a / b <= c - 1 {
      Scale(c - 1, a / b, b);
    }
  }

  /** The output never exceeds what the connector holds, nor lowers the connectors' product. */
  lemma BancorKeepsProduct(conin: int, conout: int, incoming: int)
    requires conin >= 0 && conout >= 0 && incoming > 0
    ensures var r := BancorOutput(conin, conout, incoming);
            r.Ok? && 0 <= r.value <= conout && (conin + incoming) * (conout - r.value) >= conin * conout
  {
    var product, total := incoming * conout, incoming + conin;
    assert product >= 0;
    Floor(product, total);
    var out := product / total;
    assert conout * total == product + conin * conout;
    AtMost(product, total, conout);
    assert (conin + incoming) * (conout - out) == conout * total - out * total;
  }

  /** Opening or renewing a loan at the market's rate. */
  lemma AddLoanKeeps(p: Pool, payment: int, rented: int, isNew: bool)
    requires Balanced(p) && p.rex > 0 && payment > 0
    requires BancorOutput(p.rent, p.unlent, payment) == Ok(rented)
    ensures var q := AddLoan(p, payment, rented, isNew);
            Balanced(q) && NoCheaper(p, q) && Product(q) >= Product(p)
  {
    hide BancorOutput;
    BancorKeepsProduct(p.rent, p.unlent, payment);
    var q := AddLoan(p, payment, rented, isNew);
    assert q.lendable == p.lendable + payment;
    Scale(q.lendable, p.lendable, p.rex);
    assert Product(q) == (p.rent + payment) * (p.unlent - rented) + (p.rent + payment) * payment;
  }

  lemma RemoveLoanKeeps(p: Pool, staked: int)
    requires Balanced(p) && 0 < staked <= p.lent
    ensures var r := RemoveLoan(p, staked);
            r.Ok? && Balanced(r.value) && NoCheaper(p, r.value) && Product(r.value) >= Product(p)
            && r.value.lendable == p.lendable && r.value.rex == p.rex
  {
    BancorKeepsProduct(p.unlent, p.rent, staked);
  }

  lemma BuyKeeps(pool: Option<Pool>, payment: int)
    requires payment > 0 && (pool.Some? ==> Balanced(pool.value))
    ensures var r := Buy(pool, payment);
            && r.Ok?
            && var (q, received) := r.value;
            && Balanced(q)
            && received >= 0 && q.rex > 0
            && (pool.None? ==> q.lendable == payment && q.rex == received && q.lent == 0 && q.loanNum == 0)
            && (pool.Some? ==>
                  var p := pool.value;
                  && q.lendable == p.lendable + payment && q.rex == p.rex + received && q.lent == p.lent
                  && q.loanNum == p.loanNum && q.namebid == p.namebid
                  && (p.rex > 0 ==> NoCheaper(p, q)))
  {
    if pool.Some? && pool.value.rex > 0 {
      var p := pool.value;
      SharesIssued(p.lendable, p.rex, payment);
    }
  }

  /** Shares are issued at no less than the present price, and never at more than the first ratio. */
  lemma SharesIssued(s0: int, r0: int, payment: int)
    requires 0 < r0 <= REX_RATIO * s0 && 0 < payment
    ensures var r1 := (s0 + payment) * r0 / s0;
            r0 <= r1 <= REX_RATIO * (s0 + payment) && (s0 + payment) * r0 >= s0 * r1
  {
    var s1 := s0 + payment;
    Floor(s1 * r0, s0);
    Scale(s1, s0, r0);
    AtLeast(s1 * r0, s0, r0);
    Scale(REX_RATIO * s0, r0, s1);
    assert s1 * (REX_RATIO * s0) == (REX_RATIO * s1) * s0;
    AtMost(s1 * r0, s0, REX_RATIO * s1);
  }

  lemma WorthBounds(p: Pool, rex: int, more: int)
    requires Balanced(p) && p.rex > 0 && 0 <= rex <= more
    ensures 0 <= Worth(p, rex) <= Worth(p, more)
    ensures rex <= p.rex ==> Worth(p, rex) <= p.lendable
    ensures rex == p.rex ==> Worth(p, rex) == p.lendable
  {
    Floor(rex * p.lendable, p.rex);
    Floor(more * p.lendable, p.rex);
    Scale(more, rex, p.lendable);
    assert rex * p.lendable >= 0;
    AtLeast(more * p.lendable, p.rex, Worth(p, rex));
    if rex <= p.rex {
      Scale(p.rex, rex, p.lendable);
      AtMost(rex * p.lendable, p.rex, p.lendable);
    }
    if rex == p.rex {
      AtLeast(rex * p.lendable, p.rex, p.lendable);
    }
  }

  /** A sale leaves at least a fifth of what is lent, and never lowers the price of the shares left. */
  lemma FillKeeps(p: Pool, rex: int)
    requires Balanced(p) && 0 < rex <= p.rex
    ensures var r := Fill(p, rex);
            && r.Ok?
            && (r.value.Some? ==>
                  var (q, proceeds) := r.value.value;
                  && Balanced(q) && NoCheaper(p, q)
                  && 0 <= proceeds == Worth(p, rex)
                  && q.lendable == p.lendable - proceeds && q.rex == p.rex - rex && q.lent == p.lent
                  && q.loanNum == p.loanNum
                  && q.unlent >= q.lent / 5)
  {
    hide Worth;
    WorthBounds(p, rex, rex);
    WorthIsQuotient(p, rex);
    var r := Fill(p, rex);
    if r.value.Some? {
      var (q, proceeds) := r.value.value;
      Fifth(p.lent);
      SharesLeft(p.lendable, p.rex, proceeds, rex);
      SharesCovered(p.lendable, p.rex, q.lendable, q.rex);
    }
  }

  lemma SharesLeft(s0: int, r0: int, proceeds: int, rex: int)
    requires 0 < r0 && proceeds == rex * s0 / r0
    ensures (s0 - proceeds) * r0 >= s0 * (r0 - rex)
  {
    Floor(rex * s0, r0);
    assert (s0 - proceeds) * r0 == s0 * r0 - proceeds * r0;
    assert s0 * (r0 - rex) == s0 * r0 - rex * s0;
  }

  lemma Fifth(lent: int)
    requires lent >= 0
    ensures 2 * lent / 10 == lent / 5 >= 0
    ensures lent / 5 == 0 ==> lent < 5
  {
  }

  lemma SharesCovered(s0: int, r0: int, s1: int, r1: int)
    requires 0 < r0 <= REX_RATIO * s0 && 0 <= r1 <= r0 && 0 <= s1
    requires s1 * r0 >= s0 * r1
    ensures r1 <= REX_RATIO * s1
  {
    Scale(REX_RATIO * s0, r0, s1);
    assert s1 * (REX_RATIO * s0) == (REX_RATIO * s1) * s0;
    AtLeast(REX_RATIO * s1 * s0, s0, r1);
    AtMost(REX_RATIO * s1 * s0, s0, REX_RATIO * s1);
  }

  /** Buying and selling at once returns the payment, or, the price being high enough, one unit less. */
  lemma BuyThenSell(pool: Option<Pool>, payment: int)
    requires payment > 0 && (pool.Some? ==> Balanced(pool.value))
    ensures var r := Buy(pool, payment);
            && r.Ok?
            && var (q, received) := r.value;
            && q.rex > 0
            && Worth(q, received) <= payment
            && (pool.None? || pool.value.lendable <= q.rex ==> Worth(q, received) >= payment - 1)
            && (pool.None? || pool.value.rex == 0 ==> Worth(q, received) == payment)
  {
    BuyKeeps(pool, payment);
    var (q, received) := Buy(pool, payment).value;
    if pool.Some? && pool.value.rex > 0 {
      SellBack(pool.value.lendable, pool.value.rex, payment, q.rex);
    } else {
      WorthBounds(q, received, received);
    }
  }

  lemma SellBack(s0: int, r0: int, payment: int, r1: int)
    requires s0 > 0 && r0 > 0 && payment > 0 && r1 == (s0 + payment) * r0 / s0 && r1 > 0
    ensures (r1 - r0) * (s0 + payment) / r1 <= payment
    ensures s0 <= r1 ==> (r1 - r0) * (s0 + payment) / r1 >= payment - 1
  {
    var s1 := s0 + payment;
    Floor(s1 * r0, s0);
    assert (r1 - r0) * s1 == r1 * s0 + r1 * payment - s1 * r0;
    AtMost((r1 - r0) * s1, r1, payment);
    if s0 <= r1 {
      assert (payment - 1) * r1 == payment * r1 - r1;
      AtLeast((r1 - r0) * s1, r1, payment - 1);
    }
  }

  /**
   The worth of REX held can rise by more than what is paid for more of it: fees have doubled the worth
   of 1,000,000 shares to 200, and 100 more tokens make the holding worth 300. A vote that counted 100
   for it, and adds the 100 paid, then falls short by 100.
   */
  lemma WorthOutgrowsPayments(p: Pool, q: Pool)
    requires p == Pool(0, 200, INIT_RENT, 200, 1_000_000, 0, 0) && q == Pool(0, 300, INIT_RENT, 300, 1_500_000, 0, 0)
    ensures Balanced(p) && Worth(p, 1_000_000) == 200
    ensures Buy(Some(p), 100) == Ok((q, 500_000)) && Worth(q, 1_500_000) == 300
  {
    hide Worth, Buy;
    WorthIs(p, 200, 1_000_000, 1_000_000, 200);
    BuyIs(p, 200, 1_000_000, 100, 1_500_000);
    WorthIs(q, 300, 1_500_000, 1_500_000, 300);
  }

  lemma WorthIsQuotient(p: Pool, rex: int)
    requires p.rex != 0
    ensures Worth(p, rex) == rex * p.lendable / p.rex
  {
  }

  lemma WorthIs(p: Pool, lendable: int, shares: int, rex: int, tokens: int)
    requires p.lendable == lendable && p.rex == shares > 0
    requires tokens * shares <= rex * lendable < tokens * shares + shares
    ensures Worth(p, rex) == tokens
  {
    Quotient(rex * lendable, shares, tokens);
  }

  lemma BuyIs(p: Pool, lendable: int, shares: int, payment: int, more: int)
    requires p.lendable == lendable > 0 && p.rex == shares > 0 && p.unlent == lendable - p.lent >= 0 && payment > 0
    requires more * lendable <= (lendable + payment) * shares < more * lendable + lendable
    ensures Buy(Some(p), payment)
            == Ok((p.(lendable := lendable + payment, rex := more, unlent := p.unlent + payment), more - shares))
  {
    Quotient((lendable + payment) * shares, lendable, more);
  }

  lemma ChannelKeeps(p: Pool, amount: int)
    requires Balanced(p) && p.rex > 0 && amount >= 0
    ensures Balanced(Channel(p, amount)) && NoCheaper(p, Channel(p, amount))
  {
    Scale(p.lendable + amount, p.lendable, p.rex);
  }
}
