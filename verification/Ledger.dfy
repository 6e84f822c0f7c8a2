/** The core token's balances and the accounts the system contract moves tokens between. */
module Ledger {
  import opened Basics

  type Tokens = map<Name, int>

  const SYSTEM: Name := 1
  const RAM_ACCOUNT: Name := 2
  const RAMFEE_ACCOUNT: Name := 3
  const STAKE_ACCOUNT: Name := 4
  const BPAY_ACCOUNT: Name := 5
  const VPAY_ACCOUNT: Name := 6
  const NAMES_ACCOUNT: Name := 7
  const SAVING_ACCOUNT: Name := 8
  const REX_ACCOUNT: Name := 9
  const B1: Name := 10

  /**
   A token transfer. `shortage` says whose fault an overdrawn balance is: the caller's, or, when
   the paying account is one the contract keeps books for, the contract's.
   */
  function Transfer(tokens: Tokens, from: Name, to: Name, quantity: int, shortage: Error): (r: Result<Tokens>)
    ensures r.Ok? ==> from != to && 0 < quantity <= At(tokens, from)
    ensures r.Ok? ==> (forall a ::
      At(r.value, a) == At(tokens, a) + (if a == to then quantity else 0) - (if a == from then quantity else 0))
    ensures r == Err(Broken) ==> shortage == Broken && At(tokens, from) < quantity
  {
    if from == to || quantity <= 0 then Err(Rejected)
    else if At(tokens, from) < quantity then Err(shortage)
    else Ok(tokens[from := At(tokens, from) - quantity][to := At(tokens, to) + quantity])
  }

  function Issue(tokens: Tokens, to: Name, quantity: int): Result<Tokens> {
    if quantity <= 0 then Err(Rejected) else Ok(tokens[to := At(tokens, to) + quantity])
  }
}
