# The economy of eosio.system

A Dafny model of the four economic components of the `eosio.system` contract, with proofs of what every
run of their actions keeps:

* **The resource exchange and staking** (`rex.cpp`, `delegate_bandwidth.cpp`). A pool of tokens issues
  shares at a floor-division price, lends tokens on as bandwidth in a two-connector market, buys shares
  back through a queue, and keeps each account's shares in a deque of maturity buckets; maintenance of all
  this interleaves with almost every action. Staking, unstaking and refunds share its resource totals and
  voting stakes.
* **Voting** (`voting.cpp`). Votes cast for producers or through chains of proxies of any length; tallies
  kept by undoing the last weight cast; a global vote-pay accumulator integrated lazily.
* **Election and pay** (`voting.cpp`, `producer_pay.cpp`). The schedule, unpaid blocks, inflation and claims.
* **The RAM market** (`exchange_state.cpp`, and the RAM actions). A conversion in two hops through RAMCORE.

## How it is laid out

Each component is modelled twice. A specification on values says what each action makes of the tables, or
why it aborts: `RamMarket`, `Voting` with `Governance`, and `Exchange` over `RexPool` and `RexBalance`. A class
then runs the contract's own code, assigning tables and looping over rows and buckets as it does, and every
method is proved to leave exactly the tables its specification says: `RamContract`, `GovernanceContract`,
`ExchangeContract`. The properties are proved of the specifications, for every state and every run, in
`RamMarket` over `RamMath`; in `VotePay`, `ProxyGraph`, `VoteTallies`, `VoteBallots`, `VoteActions` and
`GovernanceRuns`, with `VoteWeights` on when tallies are exact and `VoteBlocks` on when a vote fails on a check
meant for corrupted data; and in `ExchangeBooks` (what the tables must agree on), `ExchangeParts`, `ExchangeLoans`,
`ExchangeShares`, `ExchangeOrders`, `ExchangeStaking` (what each part of an action does to those books),
`ExchangeRuns`, `ExchangeHistory`, `ExchangeAccounts` (what is held for each account), `ExchangeDrift`,
`ExchangeQueue` and `ExchangeTheorems`. What each action comes to in figures, exactly when it succeeds and who is left
with what, is in `ExchangeMaintenance` (expired loans, orders), `ExchangeActions`, `ExchangeStakeActions` and
`ExchangeRefunds` (when refunds are paid), `GovernanceActions` and `RamActions`. `GovernanceInstances` (over `VoteSteps`, `GovernanceScenes` and `VoteClock`),
`ExchangeInstances` and `ExchangeOvertaking` are runs from a fresh chain that show what can go wrong. `Basics`,
`Sums`, `SortedIndex` and `Ledger` hold what these share.

An action aborts with one of three errors. `Rejected` is a check on what the caller asked. `Broken` is a
check, a missing row, an overdrawn account of the contract's or a division by zero that its own bookkeeping is
to rule out. `Endless` is a recursion that would not return. The main results say that the last two never
happen in the exchange and the RAM market; in voting and pay `Endless` never does, and `Broken` exactly when
`GovernanceRuns.Fails` says. In the middle of an action the books of the exchange do not balance; a `Context` says
what is still pending, so that maintenance can be proved to keep them at any point.

A few fields are history that no action reads: in the exchange, the REX each account bought and sold, the
proceeds of orders filled and credited, the tokens each account paid in, took out, spent and earned, what it
undelegated and when, what it was refunded, the drift of voting stakes, and how often the pool was filled from
empty; in voting, whether a weight was ever stored that differed, in the votes it stands for, from what was passed
on.

## What the proofs found

* `buyrambytes` can deliver more bytes than asked for, because it quotes the price before `buyram` adds newly
  released RAM. `DeliversMoreThanRequested` gives an instance, and `DeliversMoreIff` the exact condition.
* `unstaketorex` drops the change of stake that `add_to_rex_balance` returns, so voting stake can fall behind
  what an account holds. It is the only action that does so, apart from closing an account whose first purchase
  was too small to buy any REX; `DriftOnlyByUnstaking` says by how much. An account whose stake has fallen behind
  can be refused a sale, since its stake for voting would become negative; `SettlingFailsIff` says exactly when.
  `UnstakingLosesVotes` and `SaleRefused` are runs in which this happens.
* `update_rex_stake`, which `voteproducer` calls, changes a stake without checking that it stays non-negative.
  `VotingStakeNegativeIff` says when it does not, and `StakeBelowZero` is a run. A vote of negative weight is then
  stored but not cast. Tallies stay the sums of the weights cast, but no longer of those stored
  (`TotalVotesAreStoredIff`, `NegativeVoteIsStored`).
* Nor is the ballot of such a vote checked for producers that are not registered. One that names such a producer
  makes an action fail, on a check meant for corrupted data, when the account's vote is refreshed or a change of
  more than one vote is passed on to it: a later change of the account's own stake (`NegativeVoteBlocks`), but also
  the vote of anybody else who uses the account as a proxy (`InnocentVoteBlocked`). `StepKeepsHealth` and the
  conditions of `VoteBlocks` say exactly which actions fail.
* `propagate_weight_change` stores the new weight but keeps changes of at most 1 to itself, and passes on greater
  changes in full even to or from a negative weight, which stands for no votes. In either way votes are lost or
  gained (`SmallChangeIsLost`, `LargeChangeDistorts`); `DistortedIff`, `DirectExactIff` and `ThroughExactIff` say
  exactly when. The tallies are exact in every run in which neither happened; what does not depend on them holds in
  all runs (`HealthAlways`).
* So votes can turn negative, as can their total (`VotesTurnNegative`). An inactive producer with negative votes can
  come first in the index by votes, and end the walk before a producer that has votes: `ElectedIff` says who is
  elected, and `NobodyElected` is a run. And before the first revision of the pay rules a claim can be worth more
  than the whole bucket, and fails: `ClaimRewardsKept` says exactly when, and `ClaimCannotBePaid` is a run.
* The queue of sell orders is not first-in, first-out: a round passes over an order that does not fit and goes on
  to the next. `OvertakenIff` says when an order is overtaken, and `OrderOvertaken` is a run.

## Assumptions

* No action is signed by the contract's own accounts: eosio.rex and eosio.stake in the exchange, eosio.bpay
  and eosio.vpay as producers; and nobody else pays into eosio.rex or eosio.stake.
* eosio.names may or may not hold the proceeds of closed name auctions that maintenance moves to the pool. If it
  does not, maintenance is `Rejected`: that it can be held up in this way is not ruled out.
* Time does not run backwards, and five days from now is a time the contract's 32-bit seconds can name.
* Floating point is exact: vote weights and shares are reals, `get_bancor_output` and the share of a claim are
  floors of exact quotients, and the square roots of the RAM market are integer roots.

## Model

| member | source | states |
|---|---|---|
| ExchangeTheorems.NeverBroken | contracts/eosio.system/src/rex.cpp:666-771 | From a fresh chain, after any run of actions, no action can fail a check that guards the contract's own books: "logic error", "insufficient staked total", both errors of `mvtosavings`, "should never go negative", "lendable REX pool is empty", an overdrawn eosio.rex or eosio.stake, or a division by zero |
| ExchangeTheorems.SolventAlways | contracts/eosio.system/src/rex.cpp:607-981 | In every reachable state the eosio.rex balance equals total_lendable + all REX funds + all loan balances + the proceeds of filled orders not yet claimed, and none of these is negative |
| ExchangeTheorems.PoolAlwaysSafe | contracts/eosio.system/src/rex.cpp:607-644 | In every reachable state total_lendable = total_unlent + total_lent, total_lent is the sum of total_staked over open loans, no total is negative, total_rex is at most 10000 times total_lendable, one is positive exactly when the other is, and a pool without shares has no loans, nothing lent and nothing unlent |
| ExchangeTheorems.PriceNeverFalls | contracts/eosio.system/src/rex.cpp:821-855 | Between any two moments of any run during which the pool was not refilled from empty, total_lendable / total_rex does not fall |
| ExchangeTheorems.EpochEndsOnlyEmpty | contracts/eosio.system/src/rex.cpp:1077-1097 | The pool is initialised, or initialised again, only when it has no shares |
| ExchangeTheorems.SharesAlwaysPartitioned | contracts/eosio.system/src/rex.cpp:387-441 | In every reachable state total_rex is the sum of all rex_balance; each balance is its matured part plus its buckets, day buckets ascending and at most five, savings last; each order has a balance row, and an open one is for a positive amount the owner has matured |
| ExchangeTheorems.NeverSoldEarly | contracts/eosio.system/src/rex.cpp:1125-1202 | For each account at any time: all REX it ever sold, directly or from the queue, plus what it could sell now, is at most what it bought with a maturity that has come; and sold plus held is all it bought |
| ExchangeTheorems.BandwidthAlwaysAgrees | contracts/eosio.system/src/rex.cpp:517-565 | In every reachable state each receiver's NET (CPU) weight is what is delegated to it plus total_staked of the NET (CPU) loans to it |
| ExchangeTheorems.StakeAlwaysConserved | contracts/eosio.system/src/delegate_bandwidth.cpp:240-418 | In every reachable state the eosio.stake balance is all delegated NET and CPU plus all pending refunds, and no delegation or refund is negative |
| ExchangeTheorems.VotingStakeTracks | contracts/eosio.system/src/delegate_bandwidth.cpp:420-443 | In every reachable state an account's voting stake is what it delegates plus its vote_stake in REX, less the stake change held in a filled order, plus its drift |
| ExchangeTheorems.DriftOnlyByUnstaking | contracts/eosio.system/src/rex.cpp:82-120 | The exact change of drift by any action, from the tables before it: by `unstaketorex` of the acting account into a REX balance that exists already, what is paid less the change of vote_stake; by `closerex` of a row without REX, its vote_stake; by everything else, and for everyone else, nothing. So drift changes if and only if one of these is not zero, and a closed row's is not zero only if its first purchase bought no REX |
| ExchangeTheorems.UnstakingDriftsBy | contracts/eosio.system/src/rex.cpp:106-116 | The figures of that change for `unstaketorex`: with the pool and the shares `add_to_rex_pool` yields for the payment, payment - (floor worth of all the account's REX - its vote_stake before) |
| ExchangeTheorems.VotingStakeOverRuns | contracts/eosio.system/src/rex.cpp:82-120 | After any run from a fresh chain, voting stake is delegations plus vote_stake less what is held back, plus the sum of those changes over the run's actions |
| ExchangeTheorems.VotesWithHoldings | contracts/eosio.system/src/rex.cpp:82-120 | An account that never unstakes into REX it holds already, nor closes a row whose vote_stake is not zero, never has any drift |
| ExchangeTheorems.VotingStakeNegativeIff | contracts/eosio.system/src/rex.cpp:1209-1232 | What `update_rex_stake` leaves an account's voting stake at, in any reachable state, and that it is negative exactly when delegations and the present worth of its REX are less than what is held back less drift; in terms of its rows, exactly when staked + the present worth of its REX is less than its vote_stake |
| ExchangeDrift.StepDrifts | contracts/eosio.system/src/rex.cpp:82-120 | The same exact change for any steady state |
| ExchangeInstances.UnstakingLosesVotes | contracts/eosio.system/src/rex.cpp:82-120 | A run of eight actions from a fresh chain ending in `unstaketorex`, after which an account with 30 of vote_stake votes with 20 |
| ExchangeInstances.SaleRefused | contracts/eosio.system/src/rex.cpp:128-176 | Six days later that account is refused the sale of all its shares, though they have matured and the pool could pay for them |
| ExchangeInstances.StakeBelowZero | contracts/eosio.system/src/rex.cpp:1209-1232 | Had it sold fewer, its next vote would leave its voting stake at -1 |
| ExchangeTheorems.SettlingFailsIff | contracts/eosio.system/src/rex.cpp:939-961 | `update_rex_account` fails exactly when the vote must change and staked + the pending change + the stake change of a filled order is negative; that sum is delegations plus vote_stake plus drift, so this takes a negative drift |
| ExchangeTheorems.NoLoanWhileOrdersWait | contracts/eosio.system/src/rex.cpp:586-598 | In every reachable state `rex_loans_available`, which looks at one index entry only, holds exactly when total_rex > 0 and no order of anyone is open |
| ExchangeTheorems.NoRenewalWhileOrdersWait | contracts/eosio.system/src/rex.cpp:672-700 | While any order waits, an expired loan is closed and never renewed |
| ExchangeQueue.QueueInOrder | contracts/eosio.system/include/eosio.system/eosio.system.hpp:279-291 | The index by time has every order once, open ones before filled ones, and open ones in order of their time |
| ExchangeQueue.PassedOverIff | contracts/eosio.system/src/rex.cpp:748-768 | One round of `runrex` over the queue: an open order within its reach is filled if and only if, at its turn, its floor worth is at most total_unlent less a fifth of total_lent, the pool at its turn being a recursion over the amounts the orders ahead request; otherwise it stays open |
| ExchangeQueue.OvertakenIff | contracts/eosio.system/src/rex.cpp:748-768 | The queue is not first-in, first-out, and exactly when: an order within reach stays open while a later one is filled if and only if it does not fit at its turn and a later one within reach does at its own |
| ExchangeOvertaking.OrderOvertaken | contracts/eosio.system/src/rex.cpp:748-768 | A run from a fresh chain, ending in `rexexec`, in which the earlier order is passed over and the later, half as large, is filled |
| ExchangeTheorems.FilledOnceCreditedOnce | contracts/eosio.system/src/rex.cpp:744-769 | For each account, the proceeds of its queued orders filled so far are exactly those credited to it, where its fund grows, in order, followed by those of a filled order not yet claimed |
| ExchangeTheorems.EveryTokenAccounted | contracts/eosio.system/src/rex.cpp:16-28 | In every reachable state, for each account: its REX fund, plus the balances of the loans it opened, plus the proceeds of its filled order, is what it deposited plus what all its shares were sold for, less what it withdrew and what it paid for shares, for loans and for their renewal |
| ExchangeAccounts.StepShifts | contracts/eosio.system/src/rex.cpp:892-961 | No action, for any account, moves what the exchange holds for it away from what its own deals leave it: nothing is credited to another account |
| RexPool.BancorKeepsProduct | contracts/eosio.system/src/rex.cpp:496-507 | The truncated conversion never yields more than the connector holds and never lowers the product of the connectors |
| RexPool.AddLoanKeeps | contracts/eosio.system/src/rex.cpp:607-623 | A loan opened at the market's rate keeps the pool balanced, makes shares no cheaper, and does not lower total_rent * total_unlent |
| RexPool.RemoveLoanKeeps | contracts/eosio.system/src/rex.cpp:630-644 | A closed loan keeps the pool balanced and total_lendable as it was, and does not lower total_rent * total_unlent |
| RexPool.BuyKeeps | contracts/eosio.system/src/rex.cpp:1063-1114 | A purchase always succeeds in a balanced pool, grows total_lendable by the payment and total_rex by the shares issued, and makes shares no cheaper |
| RexPool.FillKeeps | contracts/eosio.system/src/rex.cpp:821-855 | A filled sale pays the floor of the shares' worth, leaves total_unlent at least a fifth of total_lent, and makes the remaining shares no cheaper |
| RexPool.BuyThenSell | contracts/eosio.system/src/rex.cpp:1098-1111 | Buying and selling at once returns at most the payment, and at least the payment less one unit when total_lendable before is at most total_rex after; an empty pool returns it exactly |
| RexPool.WorthOutgrowsPayments | contracts/eosio.system/src/rex.cpp:113-116 | A pool in which buying for 100 raises the holder's vote stake by 200: the arithmetic behind drift |
| RexBalance.AtMostSixBuckets | contracts/eosio.system/src/rex.cpp:1125-1157 | A partitioned balance has at most five day buckets and one savings bucket, strictly ascending |
| RexBalance.MatureKeeps | contracts/eosio.system/src/rex.cpp:1021-1030 | Maturing moves exactly what is due, and changes neither the total nor what is sellable by any later time |
| RexBalance.AddPurchaseKeeps | contracts/eosio.system/src/rex.cpp:1145-1157 | A purchase becomes sellable at its own maturity; everything else stays as it was |
| RexBalance.MoveToSavingsKeeps | contracts/eosio.system/src/rex.cpp:381-413 | Moving to savings succeeds exactly when the amount, the open order and the savings fit in the balance, never trips either internal check, leaves the open order covered, and makes nothing sellable sooner |
| RexBalance.MoveFromSavingsKeeps | contracts/eosio.system/src/rex.cpp:421-442 | Moving out of savings succeeds exactly up to what savings hold, and what is moved matures like REX bought today |
| RexBalance.ConsolidateKeeps | contracts/eosio.system/src/rex.cpp:1038-1054 | Consolidating keeps exactly what the open order needs matured, and the savings, and makes nothing sellable sooner |
| RexBalance.TakeBackKeeps | contracts/eosio.system/src/rex.cpp:396-412 | Taking from the latest buckets first takes exactly the amount, or empties them all and says what is missing |
| ExchangeRuns.StepKeeps | contracts/eosio.system/src/rex.cpp:16-474 | Every action of a sound exchange either leaves it sound, with share prices no lower, or is refused for a reason of its caller's |
| ExchangeRuns.RunKeeps | contracts/eosio.system/src/rex.cpp:16-474 | The same of any run, aborted actions being undone |
| ExchangeRuns.GenesisIsSteady | contracts/eosio.system/src/rex.cpp:1077-1087 | An exchange without any table row is sound |
| ExchangeRuns.BuyRexKeeps | contracts/eosio.system/src/rex.cpp:57-73 | `buyrex` moves tokens from a fund into the pool, shares to the buyer and the change of stake to its vote, through maintenance in between |
| ExchangeRuns.UnstakeToRexKeeps | contracts/eosio.system/src/rex.cpp:82-120 | `unstaketorex` keeps every book, the difference between the tokens unstaked and the change of vote stake being entered as drift |
| ExchangeRuns.SellRexKeeps | contracts/eosio.system/src/rex.cpp:128-176 | `sellrex` keeps every book, whether it fills, queues or adds to an open order |
| ExchangeRuns.RentKeeps | contracts/eosio.system/src/rex.cpp:774-803 | `rentcpu` and `rentnet` keep every book |
| ExchangeRuns.CloseRexKeeps | contracts/eosio.system/src/rex.cpp:449-484 | `closerex` keeps every book: an account without REX has no order, and its row can go |
| ExchangeOrders.RunRexKeeps | contracts/eosio.system/src/rex.cpp:666-771 | Maintenance keeps every book in the middle of any action, whatever of that action is still pending |
| ExchangeOrders.UpdateAccountKeeps | contracts/eosio.system/src/rex.cpp:939-961 | Settling an account adds the proceeds at hand and those of its filled order to its own fund, leaves every other fund as it was, logs the latter as credited to it, and moves the pending stake to its vote |
| ExchangeOrders.PaidToOwner | contracts/eosio.system/src/rex.cpp:908-957 | The funds so changed, account by account |
| ExchangeOrders.FrontTells | contracts/eosio.system/include/eosio.system/eosio.system.hpp:279-291 | By the index key of the queue, its first entry is open exactly when some order is |
| ExchangeShares.BuyInKeeps | contracts/eosio.system/src/rex.cpp:1063-1159 | Adding to the pool and to a balance enters a pending payment in the books, and makes the change of vote stake pending |
| ExchangeShares.FillOrderKeeps | contracts/eosio.system/src/rex.cpp:821-855 | A direct sale makes its proceeds and the change of vote stake pending |
| ExchangeShares.FillQueuedKeeps | contracts/eosio.system/src/rex.cpp:744-769 | Filling a queued order always finds the owner's balance row, and leaves nothing pending |
| ExchangeLoans.ProcessLoanKeeps | contracts/eosio.system/src/rex.cpp:672-700 | Renewing or closing an expired loan fails no check and keeps every book, whatever its terms; which of the two it is, `LoanTurn` says |
| ExchangeLoans.RenewPool | contracts/eosio.system/src/rex.cpp:607-659 | Renewal at today's price keeps the pool sound, shares no cheaper and total_rent * total_unlent no smaller |
| ExchangeLoans.OpenLoanKeeps | contracts/eosio.system/src/rex.cpp:774-803 | What is paid for a new loan is accounted for in the pool and in the loan's own fund, and its number is new |
| ExchangeLoans.ChannelToRexKeeps | contracts/eosio.system/src/rex.cpp:969-982 | A channelled fee grows the pool and the exchange's tokens alike |
| ExchangeParts.LimitsFollow | contracts/eosio.system/src/rex.cpp:517-565 | When a receiver's delegations and loans change by given amounts, changing its totals by the same amounts fails no check and keeps them in agreement |
| ExchangeStaking.ChangeBwKeeps | contracts/eosio.system/src/delegate_bandwidth.cpp:240-418 | Staking, unstaking and staking for others keep every book |
| ExchangeStaking.SettleBalances | contracts/eosio.system/src/delegate_bandwidth.cpp:328-405 | Settling a stake change with the refund: what is taken out of the refund or left to be paid is exactly the change, and no refund becomes negative or stays as an empty row |
| ExchangeStaking.DrawsFirst | contracts/eosio.system/src/delegate_bandwidth.cpp:351-367 | Per resource, the pending refund is drawn on first: tokens are due only once it is used up, and only for the rest |
| ExchangeStaking.ClaimRefundKeeps | contracts/eosio.system/src/delegate_bandwidth.cpp:472-487 | A refund pays out what was set aside for it, and eosio.stake always has it; when it may, `RefundOkIff` says |
| ExchangeStaking.UpdateRexStakeKeeps | contracts/eosio.system/src/rex.cpp:1209-1232 | Revaluing a voter's REX changes its vote_stake and its voting stake alike |
| ExchangeMaintenance.FirstLoan | contracts/eosio.system/src/rex.cpp:666-742 | In any reachable state with no name proceeds pending, one turn of maintenance (`RunRex(s, 1)`) keeps the first expired CPU loan if and only if it can pay (payment <= balance), its payment rents more than it is, at floor(payment * (unlent + staked) / (payment + rent left)) with rent left = rent - floor(staked * rent / (unlent + staked)), and no order of anyone is open; the row is then renewed for exactly thirty days with that staked and the payment off its balance, and otherwise gone, the opener's fund growing by the balance; the receiver's weight follows. Likewise for a NET loan, once no CPU loan has expired |
| ExchangeMaintenance.LoanTurn | contracts/eosio.system/src/rex.cpp:672-700 | The turn of any loan in the middle of any action never fails, and what it does in the same figures: pool, loan table, funds, bandwidth of every account |
| ExchangeMaintenance.LoansTakeTurns | contracts/eosio.system/src/rex.cpp:710-742 | Expired loans are processed until none is left or as many as allowed have had a turn, counting closed rows and renewals |
| ExchangeMaintenance.ExpiredIs | contracts/eosio.system/src/rex.cpp:715-722 | The front of the index by expiration is the expired loan that expires first, ties by number, and is asked for exactly if one has expired |
| ExchangeMaintenance.RunRexOkIff | contracts/eosio.system/src/rex.cpp:666-771 | Maintenance fails if and only if there is no pool or the name proceeds it is to move are not in eosio.names: never for a loan or an order, whatever action it interrupts |
| ExchangeMaintenance.NamebidsMove | contracts/eosio.system/src/rex.cpp:704-708 | Pending name proceeds go to the pool with their tokens while it has shares, and out of its books otherwise |
| ExchangeMaintenance.OrdersTakeTurns | contracts/eosio.system/src/rex.cpp:748-768 | By `RunRex` itself, with no loan due: each of the first `max` open orders is filled if and only if it fits at its turn |
| ExchangeRefunds.NeverRefundedEarly | contracts/eosio.system/src/delegate_bandwidth.cpp:472-487 | In every reachable state, what `refund` has paid an account so far is at most what it undelegated 259200 seconds ago or earlier (in the whole seconds the time is kept in); and paid plus waiting is at most all it undelegated |
| ExchangeRefunds.RefundOkIff | contracts/eosio.system/src/delegate_bandwidth.cpp:320-487 | In every reachable state `refund` succeeds if and only if the row exists and the last undelegation that went into it is that old; the owner's own balance then grows by net + cpu, which is positive, eosio.stake falls by it, no other balance changes and the row is gone |
| ExchangeActions.Deposits | contracts/eosio.system/src/rex.cpp:16-28 | `deposit` succeeds exactly for a positive amount the owner has, and moves it from the owner's own balance to eosio.rex and into its fund |
| ExchangeActions.Withdraws | contracts/eosio.system/src/rex.cpp:36-49 | `withdraw` succeeds exactly if the fund, with the proceeds of a filled order, covers a positive amount and the account can be settled; the tokens go from eosio.rex to the owner's own balance, no other balance or fund changes, and the filled order is gone |
| ExchangeActions.Settles | contracts/eosio.system/src/rex.cpp:939-961 | When `update_rex_account` succeeds, and what it leaves: a filled order gone, its proceeds and others in the owner's fund alone, its stake change and another in the owner's stake alone |
| ExchangeActions.Buys | contracts/eosio.system/src/rex.cpp:57-73 | `buyrex`: out of the fund, only for an account whose ballot qualifies; the pool, the bucket of midnight five days from today and the vote_stake the purchase leaves, in figures; then maintenance, then exactly when settling refuses it, and what it leaves |
| ExchangeActions.BuysIn | contracts/eosio.system/src/rex.cpp:1063-1159 | The pool, the shares issued, the balance row and the change of stake of a purchase, in figures; on sound books it always succeeds |
| ExchangeActions.Sells | contracts/eosio.system/src/rex.cpp:128-176 | `sellrex`, on the tables maintenance leaves: exactly when it succeeds, at once or queued, b1 and orders not covered by matured REX included; sold, the seller's fund grows by the floor worth and its row and the pool lose the shares; queued, the amount is added to the open order, which keeps its place |
| ExchangeActions.Cancels | contracts/eosio.system/src/rex.cpp:183-190 | Only an open order can be cancelled, and it is then gone; nothing else changes |
| ExchangeActions.Rents | contracts/eosio.system/src/rex.cpp:774-803 | `rentcpu` and `rentnet`: exactly when they succeed on the tables maintenance leaves, and the pool, the loan row with its thirty days, the fund and the receiver's weight afterwards, in figures |
| ExchangeActions.FundsLoan | contracts/eosio.system/src/rex.cpp:858-868 | Exactly when a loan can be funded: its own opener, before it expires, out of its fund; which row and fund change |
| ExchangeActions.DefundsLoan | contracts/eosio.system/src/rex.cpp:871-883 | ... and the same for taking from it, up to its balance |
| ExchangeActions.Revalues | contracts/eosio.system/src/rex.cpp:301-325 | `updaterex`: vote_stake becomes the floor worth of all the account's REX, or 0 in an empty pool, the vote follows by the difference, and what is due matures; exactly when it succeeds |
| ExchangeActions.Consolidates | contracts/eosio.system/src/rex.cpp:364-373 | `consolidate`: exactly when it succeeds, and that only this account's row becomes the consolidated one |
| ExchangeActions.Saves | contracts/eosio.system/src/rex.cpp:381-414 | `mvtosavings` succeeds exactly up to what is neither in savings nor in the open order; only this row changes |
| ExchangeActions.Unsaves | contracts/eosio.system/src/rex.cpp:421-442 | `mvfrsavings` succeeds exactly up to what is in savings; only this row changes |
| ExchangeActions.Closes | contracts/eosio.system/src/rex.cpp:449-484 | `closerex` succeeds exactly if the account can be settled and has no REX; its balance row is gone, and its fund if and only if it is empty and no loan is outstanding |
| ExchangeActions.Channels | contracts/eosio.system/src/rex.cpp:969-998 | A fee is moved to eosio.rex and the pool at once, and a name bid noted, exactly while the pool has shares; otherwise nothing happens |
| ExchangeStakeActions.Delegates | contracts/eosio.system/src/delegate_bandwidth.cpp:240-456 | `delegatebw`: exactly when it succeeds, the rule against transferring to oneself included; the delegation, the receiver's weights, the RAM quota left alone, refund drawn first per resource when staking to oneself, exactly the rest taken from the caller's own tokens (also when the stake is transferred), and the stake of whoever owns it, its REX revalued |
| ExchangeStakeActions.Undelegates | contracts/eosio.system/src/delegate_bandwidth.cpp:240-469 | `undelegatebw`: exactly when it succeeds, in terms of the delegation, the activation and the stake; what is undelegated is added to the refund row, whose time starts anew, and no tokens move |
| ExchangeStakeActions.Unstakes | contracts/eosio.system/src/rex.cpp:82-120 | `unstaketorex`: exactly when it succeeds; delegation, weights and tokens moved from eosio.stake to eosio.rex, the purchase, maintenance, and settling as if the stake had not changed, in figures |
| ExchangeStakeActions.VotesWithRex | contracts/eosio.system/src/rex.cpp:1209-1232 | Before a vote or a stake change the account's vote_stake becomes the floor worth of its REX, and its stake changes by the difference |
| ExchangeContract.ExchangeSystem.constructor | contracts/eosio.system/src/rex.cpp:1077-1087 | The tables of a fresh chain |
| ExchangeContract.ExchangeSystem.Perform | contracts/eosio.system/src/rex.cpp:16-484 | An action on the tables: it leaves them as `Exchange.Step` says or, aborting, as they were; from a steady state to a steady state, never aborting but for the caller's reasons |
| ExchangeContract.ExchangeSystem.Deposit | contracts/eosio.system/src/rex.cpp:16-28 | Tables changed in place as by `Exchange.DepositTo`, or aborted as it |
| ExchangeContract.ExchangeSystem.Withdraw | contracts/eosio.system/src/rex.cpp:36-49 | ... as by `Exchange.WithdrawFrom` |
| ExchangeContract.ExchangeSystem.BuyRex | contracts/eosio.system/src/rex.cpp:57-73 | ... as by `Exchange.BuyRex` |
| ExchangeContract.ExchangeSystem.UnstakeToRex | contracts/eosio.system/src/rex.cpp:82-120 | ... as by `Exchange.UnstakeToRex` |
| ExchangeContract.ExchangeSystem.TakeDelegated | contracts/eosio.system/src/rex.cpp:91-112 | ... as by `Exchange.TakeDelegated` |
| ExchangeContract.ExchangeSystem.SellRex | contracts/eosio.system/src/rex.cpp:128-176 | ... as by `Exchange.SellRex` |
| ExchangeContract.ExchangeSystem.SellMatured | contracts/eosio.system/src/rex.cpp:139-169 | ... as by `Exchange.SellMatured` |
| ExchangeContract.ExchangeSystem.CancelRexOrder | contracts/eosio.system/src/rex.cpp:183-190 | ... as by `Exchange.CancelOrder` |
| ExchangeContract.ExchangeSystem.RentRex | contracts/eosio.system/src/rex.cpp:774-803 | ... as by `Exchange.Rent` |
| ExchangeContract.ExchangeSystem.OpenLoan | contracts/eosio.system/src/rex.cpp:786-802 | ... as by `Exchange.OpenLoan` |
| ExchangeContract.ExchangeSystem.FundRexLoan | contracts/eosio.system/src/rex.cpp:858-868 | ... as by `Exchange.FundLoan` |
| ExchangeContract.ExchangeSystem.DefundRexLoan | contracts/eosio.system/src/rex.cpp:871-883 | ... as by `Exchange.DefundLoan` |
| ExchangeContract.ExchangeSystem.UpdateRex | contracts/eosio.system/src/rex.cpp:301-325 | ... as by `Exchange.UpdateRex` |
| ExchangeContract.ExchangeSystem.SetRex | contracts/eosio.system/src/rex.cpp:332-342 | ... as by `Exchange.SetRex` |
| ExchangeContract.ExchangeSystem.Consolidate | contracts/eosio.system/src/rex.cpp:364-373 | ... as by `Exchange.ConsolidateRex` |
| ExchangeContract.ExchangeSystem.MvToSavings | contracts/eosio.system/src/rex.cpp:381-414 | ... as by `Exchange.MvToSavings` |
| ExchangeContract.ExchangeSystem.MvFromSavings | contracts/eosio.system/src/rex.cpp:421-442 | ... as by `Exchange.MvFromSavings` |
| ExchangeContract.ExchangeSystem.CloseRex | contracts/eosio.system/src/rex.cpp:449-484 | ... as by `Exchange.CloseRex` |
| ExchangeContract.ExchangeSystem.RunRex | contracts/eosio.system/src/rex.cpp:666-771 | ... as by `Exchange.RunRex` |
| ExchangeContract.ExchangeSystem.ProcessExpiredLoans | contracts/eosio.system/src/rex.cpp:710-742 | The bounded loop over expired loans, against the recursive `Exchange.ProcessLoans` |
| ExchangeContract.ExchangeSystem.ProcessExpiredLoan | contracts/eosio.system/src/rex.cpp:672-700 | ... as by `Exchange.ProcessLoan`, whose figures `ExchangeMaintenance.LoanTurn` gives |
| ExchangeContract.ExchangeSystem.RenewLoan | contracts/eosio.system/src/rex.cpp:684-689 | ... as by `Exchange.Renew` |
| ExchangeContract.ExchangeSystem.CloseExpired | contracts/eosio.system/src/rex.cpp:689-697 | ... as by `Exchange.CloseLoan` |
| ExchangeContract.ExchangeSystem.ProcessOrders | contracts/eosio.system/src/rex.cpp:744-769 | The bounded loop over the queue, against the recursive `Exchange.FillOrders` |
| ExchangeContract.ExchangeSystem.ProcessOrder | contracts/eosio.system/src/rex.cpp:752-765 | ... as by `Exchange.FillQueued` |
| ExchangeContract.ExchangeSystem.FillRexOrder | contracts/eosio.system/src/rex.cpp:821-855 | ... as by `Exchange.FillOrder` |
| ExchangeContract.ExchangeSystem.UpdateRexAccount | contracts/eosio.system/src/rex.cpp:939-961 | ... as by `Exchange.UpdateAccount`, returning the REX of the open order, which it leaves alone |
| ExchangeContract.ExchangeSystem.UpdateResourceLimits | contracts/eosio.system/src/rex.cpp:517-565 | ... as by `Exchange.UpdateLimits` |
| ExchangeContract.ExchangeSystem.ChannelToRex | contracts/eosio.system/src/rex.cpp:969-982 | ... as by `Exchange.ChannelToRex` |
| ExchangeContract.ExchangeSystem.TransferToFund | contracts/eosio.system/src/rex.cpp:908-922 | ... as by `Exchange.ToFund` |
| ExchangeContract.ExchangeSystem.TransferFromFund | contracts/eosio.system/src/rex.cpp:892-899 | ... as by `Exchange.FromFund` |
| ExchangeContract.ExchangeSystem.AddToRexPool | contracts/eosio.system/src/rex.cpp:1063-1114 | The pool becomes that of `RexPool.Buy`, and the shares it issued are returned |
| ExchangeContract.ExchangeSystem.AddToRexBalance | contracts/eosio.system/src/rex.cpp:1125-1159 | The owner's row becomes that of a purchase on top of the old row, revalued; the change of vote stake is returned |
| ExchangeContract.ExchangeSystem.ProcessRexMaturities | contracts/eosio.system/src/rex.cpp:1021-1030 | The loop popping due buckets, against the recursive `RexBalance.Mature` |
| ExchangeContract.ExchangeSystem.MoveRexToSavings | contracts/eosio.system/src/rex.cpp:391-413 | The loop taking from the latest buckets, against `RexBalance.MoveToSavings` |
| ExchangeContract.ExchangeSystem.ConsolidateRexBalance | contracts/eosio.system/src/rex.cpp:1038-1054 | The loop emptying the deque, against `RexBalance.Consolidate` |
| ExchangeContract.ExchangeSystem.ReadRexSavings | contracts/eosio.system/src/rex.cpp:1172-1183 | Returns what the savings bucket holds and removes it, touching no other row |
| ExchangeContract.ExchangeSystem.PutRexSavings | contracts/eosio.system/src/rex.cpp:1191-1202 | ... as by `RexBalance.PutSavings`, touching no other row |
| ExchangeContract.ExchangeSystem.UpdateRexStake | contracts/eosio.system/src/rex.cpp:1209-1232 | ... as by `Exchange.UpdateRexStake` |
| ExchangeContract.ExchangeSystem.ChangeBw | contracts/eosio.system/src/delegate_bandwidth.cpp:240-418 | ... as by `Exchange.ChangeBw` |
| ExchangeContract.ExchangeSystem.SettleRefund | contracts/eosio.system/src/delegate_bandwidth.cpp:345-395 | The refund row changed field by field, against `Exchange.Settle`, returning what is left to be paid |
| ExchangeContract.ExchangeSystem.SettleStake | contracts/eosio.system/src/delegate_bandwidth.cpp:328-414 | ... as by `Exchange.SettleStake` |
| ExchangeContract.ExchangeSystem.ChangeDelegation | contracts/eosio.system/src/delegate_bandwidth.cpp:254-277 | ... as by `Exchange.Delegated` |
| ExchangeContract.ExchangeSystem.DelegateBw | contracts/eosio.system/src/delegate_bandwidth.cpp:445-456 | ... as by `Exchange.DelegateBw` |
| ExchangeContract.ExchangeSystem.UndelegateBw | contracts/eosio.system/src/delegate_bandwidth.cpp:458-469 | ... as by `Exchange.UndelegateBw` |
| ExchangeContract.ExchangeSystem.UpdateVotingPower | contracts/eosio.system/src/delegate_bandwidth.cpp:420-434 | ... as by `Exchange.ChangeVotes` |
| ExchangeContract.ExchangeSystem.Refund | contracts/eosio.system/src/delegate_bandwidth.cpp:472-487 | ... as by `Exchange.ClaimRefund`, of which `ExchangeRefunds.RefundOkIff` says when it succeeds |
| VotePay.GlobalShareIsSum | contracts/eosio.system/src/voting.cpp:126-175 | In agreement, the global rate is the sum of the votes of producers still counted, and the global share extrapolated to any time is the sum of their shares at that time |
| VotePay.UpdateTotalKeeps | contracts/eosio.system/src/voting.cpp:126-152 | Integrating the global share and applying the corrections keeps the accumulators in agreement; the clamps at zero never fire |
| VotePay.ShiftProducerKeeps | contracts/eosio.system/src/voting.cpp:274-307 | Moving votes to or from one producer keeps the accumulators in agreement, whether or not its three days are over |
| VotePay.MoveVotesKeeps | contracts/eosio.system/src/voting.cpp:268-315 | So does moving votes between any list of distinct producers |
| ProxyGraph.PropagateEnds | contracts/eosio.system/src/voting.cpp:352-408 | On an acyclic graph, passing a weight change along a chain of proxies returns, fails no check while votes are for registered producers, and changes nothing but weights and votes |
| ProxyGraph.PropagateSpares | contracts/eosio.system/src/voting.cpp:352-408 | It never reaches an account already on the way, such as the one whose vote is being updated |
| ProxyGraph.ReballotKeepsAcyclic | contracts/eosio.system/src/voting.cpp:254-263 | Choosing a proxy that uses none closes no cycle |
| VoteTallies.PropagateExact | contracts/eosio.system/src/voting.cpp:352-408 | As long as no stored weight is distorted, passing a weight change on keeps each tally the sum of the weights cast for it, at every depth of the chain, whatever the sign of any stake |
| VoteBallots.UpdateVotesKeepsGraph | contracts/eosio.system/src/voting.cpp:203-322 | Casting or refreshing a vote returns, fails only for the voter's reasons, and keeps the graph acyclic and every stored ballot valid |
| VoteBallots.UpdateVotesKeepsExact | contracts/eosio.system/src/voting.cpp:203-322 | ... and keeps every tally the sum of the weights cast, a negative one being stored and never cast, and both vote-pay accumulators exact, through undoing the old vote and casting the new one, unless passing weight on distorts one; whatever the sign of the voter's stake |
| VoteWeights.TotalVotesAreStoredIff | contracts/eosio.system/src/voting.cpp:232-262 | In any sound state with nothing distorted, a producer's total_votes is the sum of its direct voters' last_vote_weight if and only if none of these is negative |
| VoteWeights.ProxiedIsStoredIff | contracts/eosio.system/src/voting.cpp:232-262 | ... and a proxy's proxied_vote_weight that of those who name it, under the same condition |
| VoteWeights.VoteKeepsStoredIff | contracts/eosio.system/src/voting.cpp:193-322 | After `voteproducer`, no other direct voter of a producer having a negative weight: its total_votes is the sum of the last_vote_weight stored for it if and only if the voter's revalued weight is not negative or it is not on the ballot |
| VoteWeights.VoteKeepsCarriedIff | contracts/eosio.system/src/voting.cpp:254-263 | ... and likewise for the proxy chosen |
| VoteWeights.DistortedIff | contracts/eosio.system/src/voting.cpp:352-361 | Exactly when storing a weight while passing it on distorts the tallies, for weights of any sign: the account has a ballot, its weight changes, and either the change is at most 1 (and not passed on) though one of the two weights stands for votes, or it is greater (and passed on in full) though one of the two is negative and stands for none |
| VoteWeights.DirectExactIff | contracts/eosio.system/src/voting.cpp:352-408 | Passing on the changed weight of a direct voter leaves its producer with the votes cast for it if and only if the stored weight is not distorted |
| VoteBlocks.ThroughExactIff | contracts/eosio.system/src/voting.cpp:352-408 | Passing on the changed weight of an account that uses a proxy, over a chain of any length, leaves the proxy carrying what is cast through it if and only if the stored weight is not distorted |
| VoteWeights.UpdateVotesRegisteredIff | contracts/eosio.system/src/voting.cpp:203-322 | A vote cast or refreshed leaves all stored ballots naming registered producers if and only if its own does, which it always does when its weight is not negative |
| VoteBlocks.DirectBrokenIff | contracts/eosio.system/src/voting.cpp:352-375 | Passing on the weight of a direct voter fails on "producer not found" if and only if the change exceeds 1 and its ballot names a producer that is not registered |
| VoteBlocks.PropagateBrokenIff | contracts/eosio.system/src/voting.cpp:352-408 | For any account on an acyclic graph: if and only if the change, followed from proxy to proxy as far as each next change exceeds 1, arrives at such a ballot |
| VoteBlocks.PropagateSettles | contracts/eosio.system/src/voting.cpp:352-408 | Passing on stores, for exactly the accounts the change so followed arrives at, the weight they would cast now, and changes no other account |
| VoteBlocks.UpdateVotesBrokenIff | contracts/eosio.system/src/voting.cpp:203-322 | A vote, new or refreshed, fails on a check meant for corrupted data if and only if taking the last weight back or casting the new one arrives at such a ballot, or the vote is refreshed with a weight that is not negative and its own ballot is such a one |
| VoteBlocks.ChangeStakeBrokenIff | contracts/eosio.system/src/delegate_bandwidth.cpp:420-443 | `update_voting_power` does, by the account's row and the rows up its chain of proxies before the call: for a direct voter, exactly if the new stake is allowed, its weight is not negative and its ballot names a producer that is not registered |
| VoteBlocks.VoteProducerBrokenIff | contracts/eosio.system/src/voting.cpp:193-322 | `voteproducer` does, exactly if the vote is a valid one and it arrives at such a ballot through the old proxy or the registered new one |
| VoteBlocks.RegProxyBrokenIff | contracts/eosio.system/src/voting.cpp:333-350 | `regproxy` does, exactly if it may be taken and the change of weight it causes arrives at such a ballot |
| VoteActions.VoteProducerKept | contracts/eosio.system/src/voting.cpp:193-201 | `voteproducer` keeps the voting tables sound, the tallies exact included, whatever the voter's revalued stake, and fails only for the voter's reasons while stored ballots name registered producers; which those are, `VoteProducerOkIff` says |
| VoteActions.ChangeStakeKept | contracts/eosio.system/src/delegate_bandwidth.cpp:420-443 | `update_voting_power` keeps the voting tables sound |
| VoteActions.RegProxyKept | contracts/eosio.system/src/voting.cpp:333-350 | `regproxy`, registering or unregistering a proxy others use, keeps the voting tables sound |
| GovernanceRuns.ElectedIff | contracts/eosio.system/src/voting.cpp:88-118 | For any tables, the early-stopping walk over the index by votes elects at most 21, in order of name, all active and with votes; such a producer is elected if and only if it is neither out-voted by each of a full 21 (ties by name) nor preceded in the index by an inactive producer with negative votes (ties by name), at which the walk stops |
| GovernanceRuns.ElectedAreTopWhenExact | contracts/eosio.system/src/voting.cpp:88-118 | On a healthy chain with nothing distorted the latter does not occur: elected are exactly those active producers with votes whom no full 21 out-vote |
| GovernanceRuns.ScheduleNeverShrinks | contracts/eosio.system/src/voting.cpp:104-117 | Over any run, the size of the accepted schedule never falls |
| GovernanceRuns.RefillSplits | contracts/eosio.system/src/producer_pay.cpp:94-131 | Inflation is split so that the parts add up to what is issued, a fifth of it to producers, and each bucket grows as its account does |
| GovernanceRuns.ClaimIsAFairPart | contracts/eosio.system/src/producer_pay.cpp:158-173 | A claimant's share is between nothing and the global share it is measured against, which is the sum of all producers' shares |
| GovernanceRuns.ClaimKeepsAgreement | contracts/eosio.system/src/producer_pay.cpp:158-187 | A claim keeps the vote-pay accumulators in agreement |
| GovernanceRuns.RefillIff | contracts/eosio.system/src/producer_pay.cpp:94-125 | Refilling the buckets fails exactly if it is due and less than one whole token is due by blocks, never on a check of the contract's own; and what the bucket by votes then holds |
| GovernanceRuns.ClaimRewardsKept | contracts/eosio.system/src/producer_pay.cpp:78-200 | A claim on a healthy chain leaves tables and buckets sound, or aborts; it overdraws eosio.vpay if and only if, before the first revision, the producer may claim and its part of the bucket by its present votes in the total is more than the bucket and than the least daily pay; that takes votes above the total, and tallies already distorted. What it pays, `ClaimPays` says |
| GovernanceRuns.StepKeepsHealth | contracts/eosio.system/src/voting.cpp:193-409 | Every action keeps the chain healthy, whatever the stakes; the recursion over proxies always returns; and one of the contract's own checks fails if and only if `Fails` holds of the tables before it: a ballot of an unregistered producer is met, or a claim exceeds its bucket |
| GovernanceRuns.FailsOnlyWhen | contracts/eosio.system/src/voting.cpp:193-409 | While stored ballots name registered producers, only a claim fails so, and only before the first revision after a distortion |
| GovernanceRuns.BallotsStayRegisteredIff | contracts/eosio.system/src/voting.cpp:203-322 | Stored ballots stay of registered producers if and only if no `voteproducer` names another, which goes through only with a negative weight |
| GovernanceRuns.RunIsHealthy | contracts/eosio.system/src/voting.cpp:193-409 | So does any run from a fresh chain |
| GovernanceRuns.HealthSpelledOut | contracts/eosio.system/src/voting.cpp:203-322 | What that means for votes: each producer's votes are the weights its direct voters cast, each proxy carries the weights cast through it, totals are sums, and the accumulators agree at every time, as long as nothing was distorted |
| GovernanceRuns.HealthAlways | contracts/eosio.system/src/voting.cpp:209-215 | What it means in any case: the proxy graph has no cycle, no registered proxy uses a proxy, every stored ballot is valid, unpaid blocks add up, and both pay accounts hold exactly their buckets |
| GovernanceInstances.NegativeVoteIsStored | contracts/eosio.system/src/voting.cpp:254-269 | A run, on a chain of any age, in which an account without stake whose REX has lost one unit of worth votes for 21 registered producers: each keeps 0 votes, while the weights stored for it sum to minus the votes of a unit |
| GovernanceInstances.NegativeVoteBlocks | contracts/eosio.system/src/voting.cpp:271-312 | A run in which such a vote names 21 producers that do not exist, after which the account cannot change its stake |
| GovernanceInstances.InnocentVoteBlocked | contracts/eosio.system/src/voting.cpp:254-263 | ... and after which another account's first vote through this one, a registered proxy, fails on the same check |
| GovernanceInstances.LargeChangeDistorts | contracts/eosio.system/src/voting.cpp:358-408 | A run in which ten units voted through a proxy whose stored weight is negative are passed on in full: its producers get ten units' votes while nine are cast for them |
| GovernanceInstances.VotesTurnNegative | contracts/eosio.system/src/voting.cpp:376-379 | A run in which ten units are taken back from producers that had nine: their votes, and the total of all votes, turn negative |
| GovernanceInstances.NobodyElected | contracts/eosio.system/src/voting.cpp:96-98 | That run continued: one active producer has votes, and nobody is elected, since an inactive producer with as many negative votes comes first by its name |
| GovernanceInstances.ClaimCannotBePaid | contracts/eosio.system/src/producer_pay.cpp:168-200 | That run continued otherwise: the chain is activated, a block and a day pass, and the claim of the one producer with votes, worth ten thirds of the bucket, overdraws eosio.vpay |
| GovernanceInstances.SmallChangeIsLost | contracts/eosio.system/src/voting.cpp:358-408 | A run from the nineteenth year of 52 weeks over half a year: an account takes its vote back from a proxy whose own stake has meanwhile grown in votes by less than one more; the difference is added to the proxy's stored weight and lost to its producer |
| VoteClock.LaterFactors | contracts/eosio.system/src/voting.cpp:120-124 | The votes of a staked unit at those two times, from `stake2vote`: two to the nineteenth, and the root of two to the thirty-ninth |
| VoteClock.FactorAtLeastOne | contracts/eosio.system/src/voting.cpp:120-124 | At any time since its epoch `stake2vote` makes at least one vote of a staked unit |
| GovernanceActions.ClaimPays | contracts/eosio.system/src/producer_pay.cpp:78-200 | On a healthy chain a claim succeeds if and only if the producer is active, the chain live, a day over, a token due by blocks if a refill is due, and its pay by votes in the bucket. The claimant's own balance then grows by floor(block bucket * its unpaid blocks / all unpaid blocks) plus its pay by votes, each bucket and its account falls by exactly that, and every other account changes by its part of inflation only. Both buckets are refilled in closed form, and pay by votes is given in figures: since the first revision the floor of the bucket times its share over the global share, at most the bucket, and nothing from three days after the last claim on; before it the floor of the bucket times votes over all votes; nothing below 1000000 units |
| GovernanceActions.ClaimLeaves | contracts/eosio.system/src/producer_pay.cpp:158-193 | After a claim the claimant's share and unpaid blocks are zero and its times are now; no other producer or voter row changes |
| GovernanceActions.RefillFigures | contracts/eosio.system/src/producer_pay.cpp:91-131 | A refill in figures: 4879 / 100000 of the supply a year, a fifth to producers, a quarter of that by blocks, and every account's tokens |
| GovernanceActions.VoteProducerOkIff | contracts/eosio.system/src/voting.cpp:193-322 | While stored ballots name registered producers, `voteproducer` succeeds if and only if: the voter exists; the ballot is either at most 30 names in strictly ascending order, or a proxy that exists, is registered and is another account, the voter being none itself; unless the revalued weight is negative, every producer named is registered and active; and an account holding REX names a proxy or at least 21 producers |
| GovernanceActions.UpdateVotesOkIff | contracts/eosio.system/src/voting.cpp:203-322 | The same of `update_votes` when voting |
| GovernanceActions.NewOnesActive | contracts/eosio.system/src/voting.cpp:271-312 | Votes are moved if and only if every producer newly voted for is registered and active |
| GovernanceActions.VoteLeaves | contracts/eosio.system/src/voting.cpp:193-322 | What a vote leaves: the voter's row, field by field, with its revalued weight; the activated stake, which grows with a first vote and starts the chain at 15% of the usual supply; and all other rows but for weights |
| GovernanceActions.DirectVotesCount | contracts/eosio.system/src/voting.cpp:232-292 | A direct vote takes the weight last cast from the producers voted for before and gives the revalued one to those voted for now, none ending below zero; no other producer's votes change |
| GovernanceActions.TotalsStay | contracts/eosio.system/src/voting.cpp:126-152 | Integrating the global share and applying corrections, whatever they are, gives exactly the sum and the corrected rate, but neither below zero |
| GovernanceActions.StakeChanges | contracts/eosio.system/src/delegate_bandwidth.cpp:420-443 | `update_voting_power`: exactly when it succeeds while stored ballots name registered producers, and the row, weight and activated stake it leaves |
| GovernanceActions.ProxyRegisters | contracts/eosio.system/src/voting.cpp:333-350 | `regproxy`: exactly when it succeeds while stored ballots name registered producers, and the row it leaves |
| GovernanceActions.ProducerRegisters | contracts/eosio.system/src/voting.cpp:34-77 | A producer becomes active with its votes, shares and unpaid blocks as they were, or starts without any, its three days beginning now |
| GovernanceActions.ProducerUnregisters | contracts/eosio.system/src/voting.cpp:79-86 | An existing producer becomes inactive, and nothing else changes |
| GovernanceActions.BlockCounts | contracts/eosio.system/src/producer_pay.cpp:19-55 | Once the chain is live a block counts once for its producer and in all, starts inflation if it is the first, and leads to an election after more than 120 slots, a smaller schedule not being proposed |
| GovernanceActions.ClockAndRevision | contracts/eosio.system/src/eosio.system.cpp:289-296 | The rules of pay are revised once, from 0 to 1 |
| GovernanceContract.CheckBallot | contracts/eosio.system/src/voting.cpp:205-213 | The loop over neighbours accepts exactly the valid ballots |
| GovernanceContract.CollectDeltas | contracts/eosio.system/src/voting.cpp:237-269 | The loops filling the map of changes yield, by producer name, the difference the two ballots make to each producer on either |
| GovernanceContract.GovernanceSystem.Perform | contracts/eosio.system/src/voting.cpp:193-409 | An action on the tables: it leaves them as `Governance.Step` says or, aborting, as they were; a healthy chain stays healthy, and a check of the contract's own fails if and only if `GovernanceRuns.Fails` held before |
| GovernanceContract.GovernanceSystem.UpdateTotalVotepayShare | contracts/eosio.system/src/voting.cpp:126-152 | Tables changed in place as by `Voting.UpdateTotalShare` |
| GovernanceContract.GovernanceSystem.UpdateProducerVotepayShare | contracts/eosio.system/src/voting.cpp:154-175 | The producer's row as by `Voting.UpdateShare`, returning the share accrued |
| GovernanceContract.GovernanceSystem.ShiftRow | contracts/eosio.system/src/voting.cpp:273-309 | The row and the accumulators changed step by step, against `Voting.ShiftProducer` |
| GovernanceContract.GovernanceSystem.MoveOne | contracts/eosio.system/src/voting.cpp:271-312 | One turn of either loop over producers, against `Voting.ShiftOne`, of which `GovernanceActions.NewOnesActive` says what it refuses |
| GovernanceContract.GovernanceSystem.MoveVotes | contracts/eosio.system/src/voting.cpp:268-315 | The loop over producers, against the recursive `Voting.ShiftAll` |
| GovernanceContract.GovernanceSystem.PropagateWeightChange | contracts/eosio.system/src/voting.cpp:352-408 | The recursion over proxies as the contract runs it, against `Voting.Propagate` |
| GovernanceContract.GovernanceSystem.UpdateVotes | contracts/eosio.system/src/voting.cpp:203-322 | ... as by `Voting.UpdateVotes`, or aborted as it |
| GovernanceContract.GovernanceSystem.VoteProducer | contracts/eosio.system/src/voting.cpp:193-201 | ... as by `Voting.VoteProducer` |
| GovernanceContract.GovernanceSystem.UpdateVotingPower | contracts/eosio.system/src/delegate_bandwidth.cpp:420-443 | ... as by `Voting.ChangeStake` |
| GovernanceContract.GovernanceSystem.RegProxy | contracts/eosio.system/src/voting.cpp:333-350 | ... as by `Voting.RegProxy` |
| GovernanceContract.GovernanceSystem.RegProducer | contracts/eosio.system/src/voting.cpp:34-77 | ... as by `Voting.RegProducer` |
| GovernanceContract.GovernanceSystem.UnregProducer | contracts/eosio.system/src/voting.cpp:79-86 | ... as by `Voting.Deactivate` |
| GovernanceContract.GovernanceSystem.TopProducers | contracts/eosio.system/src/voting.cpp:91-108 | The walk over the index finds `Governance.Elected` |
| GovernanceContract.GovernanceSystem.UpdateElectedProducers | contracts/eosio.system/src/voting.cpp:88-118 | ... as by `Governance.UpdateElected` |
| GovernanceContract.GovernanceSystem.OnBlock | contracts/eosio.system/src/producer_pay.cpp:19-55 | ... as by `Governance.OnBlock` |
| GovernanceContract.GovernanceSystem.FillBuckets | contracts/eosio.system/src/producer_pay.cpp:91-131 | ... as by `Governance.Refill` |
| GovernanceContract.GovernanceSystem.ClaimShare | contracts/eosio.system/src/producer_pay.cpp:158-180 | Returns what a claim takes from the bucket of pay by votes, the share being taken off the tables |
| GovernanceContract.GovernanceSystem.ClaimRewards | contracts/eosio.system/src/producer_pay.cpp:78-200 | ... as by `Governance.ClaimRewards`, whose figures `GovernanceActions.ClaimPays` gives |
| RamMath.IssuedExact | contracts/eosio.system/src/exchange_state.cpp:4-19 | The truncated square-root formula of the first hop, characterised by integer inequalities |
| RamMath.TradedReaches | contracts/eosio.system/src/exchange_state.cpp:46-79 | Both hops, both truncations included, yield at least a given amount if and only if some RAMCORE supply can be afforded, by one inequality on squares, that redeems it, by another |
| RamMath.TradedAtMost | contracts/eosio.system/src/exchange_state.cpp:46-79 | Both hops with both truncations yield at most the constant-product amount |
| RamMath.TradedAtLeast | contracts/eosio.system/src/exchange_state.cpp:46-79 | ... and at most one unit less, while the connector paid from is at most a third of the RAMCORE supply |
| RamMath.ProductGrows | contracts/eosio.system/src/exchange_state.cpp:46-79 | A trade never lowers the product of the connector balances |
| RamMath.RoundTripLoses | contracts/eosio.system/src/exchange_state.cpp:46-79 | Trading there and back never returns more than was put in |
| RamMath.NeverEmptied | contracts/eosio.system/src/exchange_state.cpp:21-44 | A trade never empties the connector paid from |
| RamMarket.ConvertIsTrade | contracts/eosio.system/src/exchange_state.cpp:46-79 | The recursive conversion is the two-hop trade, and restores the RAMCORE supply |
| RamMarket.StepKeepsBooks | contracts/eosio.system/src/delegate_bandwidth.cpp:107-230 | Every RAM action keeps the books of eosio.ram balanced and fails no safety check of the contract's own; who else is paid, `SellRamPays` and `BuyRamPays` say |
| RamMarket.RunKeepsBooks | contracts/eosio.system/src/eosio.system.cpp:435-457 | From `init` on, after any run: base balance + bytes reserved = max_ram_size, bytes reserved = sum of quotas, quote balance = opening + total_ram_stake = opening + the eosio.ram balance, supply constant, and total_ram_stake never negative |
| RamMarket.DeliversMoreIff | contracts/eosio.system/src/delegate_bandwidth.cpp:89-143 | `buyrambytes` delivers more bytes than asked for if and only if the payer can pay its quote and the quote, less the fee, reaches one byte more against the base connector grown by the RAM released since the last supply update, by the two inequalities above: figures all known before the call |
| RamMarket.DeliversAtMostRequested | contracts/eosio.system/src/delegate_bandwidth.cpp:89-96 | It delivers at most the bytes asked for if the RAM released since the last supply update is at most twice the request |
| RamMarket.DeliversMoreThanRequested | contracts/eosio.system/src/delegate_bandwidth.cpp:89-96 | It can deliver more: on a fresh 64 GiB chain, 65000 slots after the rate was set to the largest, a buyer of 1000 bytes gets more than 1000 |
| RamMarket.DeliversMoreBand | contracts/eosio.system/src/delegate_bandwidth.cpp:89-143 | In plain figures: it delivers at most the request if the net payment is worth no more at constant product against the grown supply, and more than the request if it is worth two bytes more |
| RamActions.SellRamPays | contracts/eosio.system/src/delegate_bandwidth.cpp:179-230 | On balanced books `sellram` succeeds if and only if the account has the bytes and they trade for more than one unit. With out the two-hop trade against the supply once updated, the seller's balance grows by out - (out + 199) / 200, the fee goes to eosio.ramfee or, while REX is open, to eosio.rex, eosio.ram falls by out, the quota by the bytes, and no other balance or quota changes |
| RamActions.BuyRamPays | contracts/eosio.system/src/delegate_bandwidth.cpp:107-171 | `buyram` succeeds if and only if the payer has the amount, at least two units, and it buys a byte; the payer is out exactly the amount, half a percent of it, rounded up, as the fee, and the receiver's quota grows by what the rest trades for |
| RamActions.BytesAreQuoted | contracts/eosio.system/src/delegate_bandwidth.cpp:89-96 | `buyrambytes` is `buyram` for what selling the bytes would yield, fee aside, before any RAM is released |
| RamActions.RateChanges | contracts/eosio.system/src/eosio.system.cpp:110-115 | RAM accrued at the old rate goes on sale before the rate changes, and the new one applies from then on |
| RamActions.ReleasedRam | contracts/eosio.system/src/eosio.system.cpp:85-101 | RAM released since the last update, in 32 bits, is added to the limit and to the market |
| RamActions.LimitGrows | contracts/eosio.system/src/eosio.system.cpp:65-83 | The limit can be raised only, below a pebibyte and above what is reserved, and the market by the same |
| RamActions.MarketOpens | contracts/eosio.system/src/eosio.system.cpp:435-457 | `init` opens the market with all RAM on sale against a thousandth of the supply |
| RamContract.ExchangeState.ConvertToExchange | contracts/eosio.system/src/exchange_state.cpp:4-19 | The relay changed in place as by `RamMarket.ToExchange` |
| RamContract.ExchangeState.ConvertFromExchange | contracts/eosio.system/src/exchange_state.cpp:21-44 | ... as by `RamMarket.FromExchange` |
| RamContract.ExchangeState.ConvertAsset | contracts/eosio.system/src/exchange_state.cpp:46-79 | The recursion over the changed relay, against `RamMarket.Convert` |
| RamContract.RamSystem.constructor | contracts/eosio.system/src/eosio.system.cpp:435-457 | The market and totals as `RamMarket.Init` leaves them |
| RamContract.RamSystem.UpdateRamSupply | contracts/eosio.system/src/eosio.system.cpp:85-101 | ... as by `RamMarket.UpdateSupply` |
| RamContract.RamSystem.BuyRam | contracts/eosio.system/src/delegate_bandwidth.cpp:107-171 | ... as by `RamMarket.BuyRam` |
| RamContract.RamSystem.BuyRamBytes | contracts/eosio.system/src/delegate_bandwidth.cpp:89-96 | ... as by `RamMarket.BuyRamBytes`, the quote being taken on a copy of the relay |
| RamContract.RamSystem.SellRam | contracts/eosio.system/src/delegate_bandwidth.cpp:179-230 | ... as by `RamMarket.SellRam`, whose figures `RamActions.SellRamPays` gives |
| RamContract.RamSystem.SetRam | contracts/eosio.system/src/eosio.system.cpp:65-83 | ... as by `RamMarket.SetRam` |
| RamContract.RamSystem.SetRamRate | contracts/eosio.system/src/eosio.system.cpp:110-115 | ... as by `RamMarket.SetRamRate` |
| SortedIndex.WalkIsIndex | contracts/eosio.system/include/eosio.system/eosio.system.hpp:204-207 | An index walked front to back meets every row once, in the order of its key |

## Left out

- Rounding of doubles and of `pow`: replaced by exact reals and integer roots as said under Assumptions.
- Integer widths: amounts are unbounded integers, except that `update_ram_supply` multiplies in 32 bits and that block slots are subtracted in 32 bits, which are modelled.
- Inline token transfers take effect at once on a ledger of balances; the token contract, its symbols, memos and maximum supply are not modelled.
- Authorisation, RAM billing, deferred transactions and the setting of resource limits by the host; the answer of `set_proposed_producers` is an input.
- The resource-management flags (`setacctram`, `setacctnet`, `setacctcpu`, `setalimits`), `setparams`, `setpriv`, `setabi`, and the vesting schedule of b1.
- The name auction: a closed bid enters the exchange as an input, and eosio.names may or may not hold it.
- The upgrade path from a producer without a `producers2` row: on a fresh chain the two rows are created together, and are one row here.
- Producer keys, URLs and locations, and `last_block_num`.
- One chain state over all components: the exchange, voting and pay, and the RAM market are three machines. Only a voter's stake occurs in two of them; whether a voter meets the voting requirement, and by how much its REX was revalued, are inputs to the other, and the results hold for every such input.
- The thin contracts for multisignature, wrapping, bootstrapping and REX results.
