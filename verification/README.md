# ITX hub: a verified model

This project models, in Dafny 4.11, the parts of the ITX hub and its Python SDK where
money, identity and single use are decided, and proves what they are meant to guarantee
over every input and every run.

* **Exchange** (`Exchange*.dfy`). The limit-order ledger: orders lock funds at their own
  price and fill at the maker's, with a taker fee and price-time-id priority. One invariant
  over all accounts and orders carries the locks, the conservation of both assets and the
  absence of u64 overflow, and every key's balance is its own deposits, withdrawals, trades
  and fees. `stage_order`'s small copy is proved to give what the whole
  board gives. The arithmetic is checked, as in the shipped build: an operation that does
  not panic is exact for every book, and none panics within the supply bound.
* **Tasks and payouts** (`Tasks.dfy`, `TaskInvariant.dfy`, `TaskRuns.dfy`,
  `TaskHistory.dfy`, `ConsensusVotes.dfy`, `TaskBoards.dfy`, `Blockchain.dfy`, `Mempool.dfy`, `Payout*.dfy`,
  `Escrow.dfy`).
  Three task kinds and ten statuses; strict-majority votes, contests, disputes and one-time
  deposits; and the payout protocol as a step system of the hub beside a chain it can only
  see through two UTXO reads. Any transaction that was ever put on the wire may be mined,
  whatever the queried node's mempool holds; mined blocks are permanent.
* **Replay guard** (`ReplayProtocol.dfy`, `ReplayGuard.dfy`). Memory, a durable table
  truncated to whole seconds, a sweep, and two kinds of restart, on a fine clock.
* **Faucet** (`FaucetPricing.dfy`, `ChallengeBook.dfy`). Difficulty arithmetic, the price
  curve, and single-use challenges across restarts.
* **SDK and names** (`SpendPlanning.dfy`, `TaskScan.dfy`, `SpendCommitment.dfy`,
  `Names.dfy`). Coin selection, paging, the signed byte encoding, and the name registry.

Code that changes things in place is a class or a method with loops, each proved against a
pure function; the lemmas about whole runs are stated with those functions. Ids, keys,
hashes and signatures are opaque values; clocks, random draws, the outcome of a durable
write and whether a signature or a proof of work verifies are parameters. `dafny verify
dfyconfig.toml` checks everything.

Five findings, each with the concrete input and the exact condition:

* A challenge that was replaced in memory is still on disk, so a restart within its life
  brings it back, and both it and its replacement can then be redeemed
  (`ChallengeProtocol.ReplacedChallengeComesBack`). The comment on `issue` says that a
  solution against the old id gets `Unknown`; the code is followed. A restart rebuilds the
  one-per-key index exactly when the table holds at most one live row per key
  (`ChallengeProtocol.RestartIsExactIff`).
* The two UTXO reads of the payout sweep are sound only in the order the code makes them:
  with the source read first, a payment mined and spent onward in between reads as never
  landed (`PayoutRuns.SourceFirstIsUnsound`, `PayoutOutcome.ResolveSound`).
* An escrow settlement pays every owed recipient without looking at the attempts in flight,
  and `submit_task_payout` exempts those recipients from the reservation of inputs. Two
  racing settlements that share no input can both be made and both be mined, from any state
  (`PayoutSends.RacingSettlementsPayTwice`); a deposit that arrived in two outputs, each
  worth the bounty and `HUB_TRANSACTION_FEE`, gives the run
  (`PayoutSends.TwoPartDepositPaysTwice`). What was sent for a leg can be paid twice exactly
  when two different payments of it are mined or still spendable and share no input
  (`PayoutSends.PaidTwiceIff`). In every run whose sends are of unsubmitted legs, or from a
  deposit that has held one output, a leg is mined at most once
  (`PayoutRuns.HubPaysAtMostOnce`). Whatever is mined, a leg is credited once
  (`PayoutRuns.CreditedOnlyIfMined`).
* `record_payout_attempt` checks no status, so a settlement that read what is owed before the
  task was given up and records its payment afterwards leaves an attempt on a failed task
  (`PayoutLost.RecordedAfterGivingUp`). A second record of a leg is truthful exactly when, at
  that moment, the task is payable and the recipient unpaid (`PayoutLost.LateRecordIff`).
* The replay guard accepts an envelope twice in some run exactly when two stalls between a
  request's checks and its claim can outlast the remembered window, or a guard may boot
  without its table at the instant of an acceptance (`ReplayProtocol.AcceptedTwiceIff`).

## Model

| member | source | states |
|---|---|---|
| ExchangeRuns.LedgerSafety | hub/src/board.rs:2793-3066 | after every run of deposits, withdrawals, placements and cancels from an empty ledger, every account's locks equal what its open orders need and are within its balances, no two owners' open orders cross, and each asset's total is exactly what came in less what went out |
| ExchangeInvariant.PlaceOrderKeepsInv | hub/src/board.rs:2920-3039 | a placement keeps the lock invariant, and base plus base fees and compute plus compute fees are unchanged by it |
| ExchangeInvariant.FillOneKeepsInv | hub/src/board.rs:2964-3024 | one fill, debited at the maker's price and released at the taker's, keeps every account covered |
| ExchangeInvariant.FillOneTotals | hub/src/board.rs:2976-3011 | one fill moves base and compute between the two parties and loses exactly its taker fee |
| ExchangeInvariant.MatchLoopKeepsInv | hub/src/board.rs:2964-3024 | the whole matching loop keeps the invariant and conserves both assets up to the fees of its trades |
| ExchangeInvariant.CancelOrderKeepsInv | hub/src/board.rs:3045-3066 | a cancel succeeds exactly for the owner of an open order, closes only that order, releases from the owner's lock exactly what it still held, changes no other account and no balance, and keeps the invariant |
| ExchangeInvariant.DebitKeepsInv | hub/src/board.rs:2833-2844 | a withdrawal takes only unlocked base, keeps the invariant, and lowers the total by its amount |
| ExchangeSettlement.PlacementSettles | hub/src/board.rs:2920-3039 | the order placed is the one asked for, at the time of the call; every balance moves by exactly what the trade records say, the taker fills by their volume, no trade is outside the taker's limit or with itself, each is stamped with that time and its fee is a tenth of a percent rounded down; a refused placement moves nothing |
| ExchangeSettlement.PlacedIff | hub/src/board.rs:2930-2961 | a placement succeeds exactly for a positive price and quantity whose product fits in a u64 and whose cost the unlocked balance covers, and each refusal names the condition that failed, with both amounts |
| ExchangeSettlement.DebitedIff | hub/src/board.rs:2833-2844 | a withdrawal succeeds exactly for a positive amount of unlocked base, takes it from that account, and changes nothing else |
| ExchangeStatements.StatementsAddUp | hub/src/board.rs:2793-3066 | after every run from an empty ledger, every key holds of each asset exactly its own deposits and grants, less its own withdrawals, plus what its own trades brought, and for the fee sink the fees |
| ExchangePriority.MatchLoopIsWalk | hub/src/board.rs:2857-2882 | the loop, which searches the whole book each turn, trades with exactly the makers, prices and amounts of one walk down the book ranked by price, time and id; `RankedIsBestFirst` says what that order is |
| ExchangePriority.BestIsTheBestDeal | hub/src/board.rs:2857-2882 | the match a taker gets is open, on the other side, another owner's and within the limit, and among all such orders none is cheaper for a buyer or dearer for a seller, at the same price none is older, and at the same instant none has a smaller id; no match exactly when there is no such order |
| ExchangePriority.RankedIsBestFirst | hub/src/board.rs:2875-2879 | a ranked list goes from the best price to the worst, then from the oldest to the newest, then by id |
| ExchangePriority.PlacementPricesNeverImprove | hub/src/board.rs:2964-3024 | of any two trades of a placement the later is at no better price for the taker |
| ExchangePriority.WalkIsPrefix | hub/src/board.rs:2964-3024 | the makers hit are a prefix of that ranking and all but the last are filled whole |
| ExchangePriority.MatchLoopExhausts | hub/src/board.rs:2964-2970 | a taker left unfilled has nothing eligible left to match |
| ExchangePriority.StableSortRanks | hub/src/board.rs:2871-2882 | a stable sort by price and time of orders in id order is the strict price-time-id ranking |
| ExchangePriority.PlaceOrderCrossFree | hub/src/board.rs:2920-3039 | if every open buy is priced below every open sell of another owner before a placement, the same holds after it |
| ExchangePriority.CancelOrderCrossFree | hub/src/board.rs:3045-3066 | a cancel cannot make orders cross |
| ExchangeStage.StagedPlacementIsFaithful | hub/src/board.rs:2887-2918 | placing on the staged copy and publishing what it touched gives the same fills, makers, prices, fees, order and balances as placing on the whole board |
| ExchangeStage.OutsideTheCopyUntouched | hub/src/board.rs:2887-3039 | a placement on the whole board leaves every order and account outside the copy as it was |
| ExchangeBoard.FillNeverOverflows | hub/src/board.rs:2971-3011 | with every account covered and each asset's supply at most (2^64-1)/10, every u64 operation of a fill is in range |
| ExchangeBoard.CancelNeverOverflows | hub/src/board.rs:3053-3064 | likewise every u64 operation of a cancel |
| ExchangeBoard.FeesNeverOverflow | hub/src/handlers.rs:2946-3040 | nor does crediting the operator what a placement charged |
| ExchangeBoard.TaskBoard.BestRestingMatch | hub/src/board.rs:2857-2882 | the filter, sort and first element find an open crossing order of another owner that is cheapest for a buyer, dearest for a seller, then oldest, then smallest in id, or none exactly when there is none |
| ExchangeBoard.TaskBoard.OrderBook | hub/src/board.rs:3076-3090 | each side of the book holds exactly its open orders, bids from the highest price and asks from the lowest, then from the oldest, then by id |
| ExchangeBoard.TaskBoard.PlaceOrder | hub/src/board.rs:2920-3039 | the in-place placement panics or computes the ideal placement, errors included, on every well-formed book, and never panics when the book is covered and within the supply bound |
| ExchangeBoard.TaskBoard.MatchAll | hub/src/board.rs:2964-3024 | the while loop terminates, panics or computes the ideal matching, and never panics within the supply bound |
| ExchangeBoard.TaskBoard.CancelOrder | hub/src/board.rs:3045-3066 | the in-place cancel panics or computes the ideal one, errors included, and never panics within the supply bound |
| ExchangeBoard.TaskBoard.DebitForWithdrawal | hub/src/board.rs:2833-2844 | the in-place debit never underflows on any book, leaves what is locked, and keeps the invariant |
| ExchangeBoard.TaskBoard.StageOrder | hub/src/board.rs:2887-2918 | the copying loop builds exactly the staged book |
| ExchangeBoard.TaskBoard.HandlePlaceOrder | hub/src/handlers.rs:2946-3040 | staging, placing, crediting fees, committing and publishing equal the handler's ideal effect on the live board; a refusal, a panic over the copy or a failed commit leaves the live board as it was |
| TaskInvariant.ApplyKeepsOk | hub/src/board.rs:1742-2043 | every operation keeps the kind/status invariant: deadlines, claimant, dispute, answers and shares are there when the status needs them |
| TaskRuns.RunOk | hub/src/board.rs:2105-2320 | every state of every history satisfies the invariant, and no operation there meets an `expect` that fails |
| TaskRuns.RunProgress | hub/src/board.rs:1341-1357 | between any two points of a history: Paid, Closed and PayoutFailed are absorbing, a decided task keeps its allocation and never reopens or closes, paid stays paid, and a contest's answers are frozen once it leaves Open |
| TaskRuns.OwedAndPaidPartition | hub/src/board.rs:682-834 | owed and paid split a decided task's allocation, which is at most the bounty, and outside PayoutFailed a task is Paid exactly when nothing is owed |
| TaskRuns.MarkPaidMovesOne | hub/src/board.rs:2336-2433 | a payment moves one recipient, at the amount owed, from owed to paid; a repeated one changes nothing |
| TaskRuns.MarkPaidAccepts | hub/src/board.rs:2336-2415 | on a payable task, a payment is accepted exactly for a key the task allocates to |
| TaskRuns.ResolutionPays | hub/src/board.rs:2274-2320 | counting the answers already recorded and the agent's own new one: each of k winners gets bounty / k with less than k left over and every other assignee is dinged; without a majority the task closes and nobody is |
| TaskRuns.ResolvesAtMostOnce | hub/src/board.rs:2175-2235 | a consensus task is resolved at most once in its life |
| TaskRuns.WhatDecides | hub/src/board.rs:1835-2320 | the only ways a task gets a winner: the claimant's matching hash, a vote with a majority, the poster's pick in time or the split after it, an unchallenged answer once its window is over, or a dispute's resolution |
| TaskRuns.PickPaysTheBounty | hub/src/board.rs:1961-1990 | a pick, which only the poster can make, owes the whole bounty to the answer picked |
| TaskRuns.SplitPaysEvenly | hub/src/board.rs:2022-2043 | an unpicked contest owes every answerer bounty / n, with less than n left over |
| TaskRuns.DisputePaysTheWinner | hub/src/board.rs:2133-2158 | a resolved dispute owes the bounty to the winner and dings the loser only |
| TaskHistory.AcceptedIff | hub/src/board.rs:1341-2559 | every request on a task in a valid state is accepted exactly under conditions on the task and the request, listed kind by kind |
| TaskHistory.RefusedForCause | hub/src/board.rs:1341-2559 | and a refusal is for a reason that holds of that task and request |
| TaskHistory.StatusChangesIff | hub/src/board.rs:1742-2579 | exactly which requests and sweeps reopen, claim, hold for a pick, dispute, verify, submit or fail a task |
| TaskHistory.ClosedIff | hub/src/board.rs:1341-2315 | a task is closed for each of the five reasons exactly when that reason holds |
| TaskHistory.PaidIff | hub/src/board.rs:2336-2433 | a task becomes Paid exactly with the payment that leaves nobody unpaid, and is settled at its time |
| TaskHistory.DingedIff | hub/src/board.rs:1835-2315 | dinged are exactly the claimant whose hash was wrong, the loser of a dispute, and every assignee that did not vote with the majority |
| TaskHistory.StepRecords | hub/src/board.rs:1779-1990 | deadlines run from the request that sets them, and only a wrong hash counts as a failed attempt, only a pick as picked |
| TaskHistory.StepDisputes | hub/src/board.rs:1545-2158 | a dispute names the challenger, bond and time it was filed with, and changes only by its outcome |
| TaskHistory.TermsNeverChange | hub/src/board.rs:1195-1300 | the terms a task was created on are the same in every later state of its history |
| TaskHistory.VoteRecords | hub/src/board.rs:2175-2216 | an accepted vote records the agent's own answer and leaves every other assignee and its answer as they were |
| TaskHistory.VotesAreTheVotersOwn | hub/src/board.rs:2175-2216 | in every state of every history, an assignee has an answer exactly if it submitted that answer itself, seated, in time and for the first time |
| TaskHistory.AssigneesJoined | hub/src/board.rs:1779-1828 | and is an assignee exactly if it joined, in time, with the reputation asked for, and not as the poster |
| TaskHistory.AnswersAreTheAnswerersOwn | hub/src/board.rs:1878-1922 | a contest holds an answer exactly if that key submitted it, at the time recorded, by the rules |
| TaskHistory.ClaimantClaimed | hub/src/board.rs:1742-1776 | the claimant of a hash-match task claimed it itself, by the rules and to the recorded deadline, and has held it since |
| TaskHistory.SolverIsPaid | hub/src/board.rs:1742-1870 | the bounty of a decided hash-match task belongs to one agent that claimed it, held it and submitted the expected hash |
| TaskHistory.MajorityIsPaid | hub/src/board.rs:1779-2320 | the bounty of a decided consensus task is shared evenly by exactly the agents that voted for one answer, who are more than half of those that joined |
| TaskInvariant.MajorityUnique | hub/src/board.rs:867-880 | two answers cannot both have more than half |
| ConsensusVotes.MajorityAnswer | hub/src/board.rs:867-880 | the counting, maximum and tie check return an answer exactly when strictly more than half of all assignees gave it |
| TaskBoards.TaskBoard.ResolveConsensus | hub/src/board.rs:2274-2320 | the loops fix the winners' shares and ding the losers exactly as the resolution defines |
| TaskBoards.TaskBoard.RecordPayoutAttempt | hub/src/board.rs:2447-2458 | replaces the attempt and moves a Verified task to Submitted exactly when nothing is left unsent |
| TaskBoards.TaskBoard.MarkRecipientPaid | hub/src/board.rs:2336-2433 | the new board, the credit and whether the task is now paid, or the exact error with nothing changed |
| TaskBoards.TaskBoard.RecordConfirmedPayout | hub/src/handlers.rs:2748-2782 | marking the recipient paid and dropping the attempt happen together, as the confirmation step does them, or not at all |
| TaskBoards.TaskBoard.MarkPayoutFailed | hub/src/board.rs:2543-2559 | fails a payable task and drops, and returns, exactly its attempts |
| TaskBoards.TaskBoard.ExpireOverdueClaims | hub/src/board.rs:2564-2579 | the sweep reopens exactly the overdue claims and returns their ids |
| Blockchain.StepKeepsOk | lib/src/types/blockchain.rs:191-286 | build, submit, accept, evict, mine and coinbase, for any transaction with unspent inputs, keep the chain consistent: mined transactions share no input and are mined once, pooled inputs are unspent and marked, and outputs, spends and blocks only grow |
| Mempool.NodeAcceptsOnlySteps | lib/src/types/blockchain.rs:191-316 | the node accepts exactly the transactions whose inputs are unspent, distinct and signed, whose outputs sum to no more than their inputs and those to at most a u64, and that leave more to the miner than each payment they replace; such an acceptance that spends anything is a step of the chain model |
| PayoutOutcome.Resolve | hub/src/board.rs:510-556 | the scans of `resolve_against` compute its four-way rule, the one `ResolveSound` describes |
| PayoutOutcome.ResolveReadsTheViews | hub/src/board.rs:510-556 | from the two lists alone: Confirmed exactly for a listed output, else Ambiguous exactly with no recorded input or one not listed, HeldInMempool only with a marked input, NeverLanded only with every input listed unmarked |
| PayoutOutcome.ResolveSound | hub/src/board.rs:380-556 | for two reads at different moments: Confirmed exactly when the output was mined and unspent at the first, so a payment so answered is mined; otherwise Ambiguous exactly when some input is spent at the second, HeldInMempool exactly when none is and some is marked, NeverLanded exactly when none is either, and so only if neither mined nor queued there |
| PayoutInvariant.StepKeepsInv | hub/src/handlers.rs:1962-2045 | every step of hub and chain keeps the protocol's invariant: attempts are for owed amounts of payable tasks, every sent leg is in flight, paid or given up, readings and credits are true of the chain, and earnings add up |
| PayoutInvariant.SendKeepsInv | hub/src/handlers.rs:5833-5911 | a send of any owed legs, whatever is in flight for them and whatever it spends, recorded one by one, keeps it |
| PayoutInvariant.ConfirmKeepsInv | hub/src/handlers.rs:2748-2800 | a confirmation acts only on the live attempt, and keeps it |
| PayoutInvariant.AbandonKeepsInv | hub/src/handlers.rs:2677-2745 | giving up drops the task's attempts and pays nobody, and keeps it |
| PayoutRuns.PaidAtMostOnce | hub/src/board.rs:2436-2525 | in every run in which a leg's later sends spend an output its earlier ones spend, at most one block carries a payment the hub built for a given task and recipient, however often it is sent or resent |
| PayoutRuns.HubPaysAtMostOnce | hub/src/handlers.rs:1962-2148 | the same for every run whose sends each are of unsubmitted legs, as the operator's path makes them, or from a deposit address that has held one output |
| PayoutInvariant.NotSentYet | hub/src/board.rs:2517-2526 | a leg that `unsubmitted_payouts` names was never sent before |
| PayoutRuns.CreditedOnlyIfMined | hub/src/board.rs:2336-2433 | in every run, also one in which two settlements of a leg are both mined: every credit is for a mined output of that amount to that recipient, no leg is credited twice, and all earnings equal all confirmed payouts plus forfeited bonds |
| PayoutReputation.ReputationIsOnesOwn | hub/src/board.rs:2133-2433 | over every run, a key's reputation counts exactly its own confirmed payments, but for the shares of an unpicked contest, and its own dings, and sums exactly its own payments and the bonds forfeited to it |
| PayoutReputation.ConfirmCredits | hub/src/board.rs:2336-2433 | a confirmation changes only its recipient, and only if the amount was still owed |
| PayoutRecords.RecordedIff | hub/src/board.rs:2447-2458 | recording an attempt files it under its leg, and turns its task from Verified to Submitted exactly when every recipient still owed then has one |
| PayoutRecords.GivenUpIff | hub/src/board.rs:2543-2559 | giving up is accepted exactly for a payable task, and drops its attempts and no other |
| PayoutRecords.ConfirmedIff | hub/src/handlers.rs:2748-2782 | a confirmation credits exactly an amount still owed, moving that recipient alone to paid; a repeated one only drops the attempt |
| PayoutRecords.SweepActsIff | hub/src/handlers.rs:2387-2745 | a sweep confirms, or resends up to four times, only an attempt that is still the one on the board, and gives up only after the fourth |
| PayoutRecords.AttemptIsItsSend | hub/src/handlers.rs:5870-5911 | in every run, an attempt on the board has the amount, output, inputs, source and transaction of one send of its leg, and the date of the last send or resend that carried it |
| PayoutRuns.PaidMeansMined | hub/src/board.rs:774-834 | a recipient a task counts as paid has a mined payment of that amount |
| PayoutRuns.StatusTellsTheTruth | hub/src/board.rs:2447-2559 | Submitted means every owed recipient has an attempt, an unsent leg means Verified, attempts are for owed amounts, and a task that is neither holds none |
| PayoutRuns.SweepAnswersSound | hub/src/handlers.rs:2387-2480 | whatever a sweep answers is true of the chain at its second read |
| PayoutRuns.SourceFirstIsUnsound | hub/src/handlers.rs:2387-2410 | with the reads swapped, a mined payment can be answered NeverLanded |
| PayoutBudget.SubmissionsStayInBudget | hub/src/handlers.rs:2495-2640 | in every run whose sends are of unsubmitted legs, the sends and resends that carry a given task and recipient are at most four, and the legs of one transaction show the same count |
| PayoutBudget.EvenSendsStayInBudget | hub/src/handlers.rs:5870-5886 | in every run whose sends each find their legs at one count, they are at most four plus the sends that found an attempt |
| PayoutBudget.FourTimesPerSend | hub/src/handlers.rs:2495-2640 | in every run at all, a leg is carried at most four times for each time it is sent |
| PayoutLost.UnevenSendRefills | hub/src/handlers.rs:5870-5886 | and that is reached: a send of a leg together with one that has no attempt lets the hub carry it four more times, whatever its count |
| PayoutLost.LostIsGivenUp | hub/src/handlers.rs:2387-2745 | from every state of every run, a payment that is on no chain and in no mempool is read as never landed, resent while it has budget, and then given up |
| PayoutLost.LateRecordIff | hub/src/board.rs:2447-2458 | a payment of a leg that was sent before is recorded truthfully exactly when the task is still payable and the recipient unpaid |
| PayoutLost.RecordedAfterGivingUp | hub/src/handlers.rs:2104-2148 | a run that ends with the task given up, after which the record of a settlement that read the debt earlier leaves an attempt on the failed task |
| PayoutSends.PaidTwiceIff | hub/src/handlers.rs:5833-5911 | in every state a run reaches, some future pays a leg twice, without the hub sending it again, exactly when two different payments sent for it are mined or still spendable and share no input |
| PayoutSends.BothLandIff | hub/src/handlers.rs:5833-5911 | for a leg with two waiting payments and no other, exactly when the two share no input |
| PayoutSends.RacingSettlementsPayTwice | hub/src/handlers.rs:2104-2148 | from every state in which two settlements of a task that share no input can be made, both can be made and mined, and everyone both pay is paid twice |
| PayoutSends.TwoPartDepositPaysTwice | hub/src/handlers.rs:5841-5848 | a run from a claimed task and a deposit in two outputs, each worth the bounty and the fee, in which two settlements of the one owed leg end up in two blocks |
| Escrow.UsedAtMostOnce | hub/src/board.rs:1410-1585 | in every run a deposit is turned into at most one task, dispute or exchange credit |
| Escrow.NoSharedEscrow | hub/src/board.rs:1410-1510 | no two tasks share an escrow, and a task's escrow is never anyone's bond |
| Escrow.LeavesReservedOnce | hub/src/board.rs:1375-1646 | a deposit that has left Reserved never returns to it |
| Escrow.StatusOnlyAdvances | hub/src/payments.rs:150-163 | over every run a deposit goes from reserved to consumed to being paid out to given back, never backwards, so nothing is paid out of it after its refund |
| Escrow.OverdueNeverUsed | hub/src/board.rs:1596-1601 | on a clock that never runs backwards, a deposit that was ever overdue is never turned into anything later |
| Escrow.ConfirmEscrowIff | hub/src/board.rs:1410-1510 | a task is created exactly for a deposit reserved for one, not overdue and funded to its required amount, and is posted by the depositor on the terms reserved |
| Escrow.BondIff | hub/src/board.rs:1521-1588 | a dispute is filed exactly with such a bond, within the window of an answered and undisputed task, by somebody who did not answer it, and names the bond, its depositor and its amount |
| Escrow.ExchangeFundingIff | hub/src/board.rs:2737-2769 | an exchange credit is made exactly for such a deposit, to its depositor's account alone |
| Escrow.EveryUseWasFunded | hub/src/board.rs:1410-1588 | every use of every run was made by the confirmation of that deposit while it was reserved, in time, funded and made for that purpose |
| Escrow.DepositStatusIff | hub/src/board.rs:1375-1646 | exactly which events change the status of a deposit and to what; nothing else about it ever changes |
| Escrow.EscrowBoard.ConfirmTaskEscrow | hub/src/board.rs:1410-1510 | every check, funding included, comes before any change, and a success consumes the deposit and creates the one task that names it, as the run's step does |
| Escrow.EscrowBoard.ConfirmDispute | hub/src/board.rs:1521-1588 | the deposit is consumed only if it is funded and the task takes the dispute, and the `expect` on its deadline holds for every valid task |
| Escrow.BondNeverPanics | hub/src/board.rs:1545-1560 | in no state of any run does that `expect` fail |
| Escrow.EscrowBoard.ConfirmExchangeFunding | hub/src/board.rs:2737-2769 | credits the depositor's exchange account, once and only for a funded deposit, with what was observed less the network fee, and changes no other account |
| Escrow.FundingKeepsTheLedger | hub/src/board.rs:2737-2769 | a confirmed deposit keeps the exchange's lock invariant and raises the base total by exactly what it credited |
| ReplayProtocol.NeverAcceptedTwice | hub/src/auth.rs:40-332 | no envelope is accepted twice over any run of racing requests, failed writes, sweeps at any moment, restores and blind restarts, as long as two stalls are shorter than the memory and a second, and a blind restart is strictly after the last acceptance |
| ReplayProtocol.FreshIsAccepted | hub/src/auth.rs:226-289 | the converse promise: in every run, outside the window after a blind boot, an envelope in drift of which no copy reached a claim is let in, and accepted when its write commits |
| ReplayProtocol.StepKeepsInv | hub/src/auth.rs:226-332 | every step keeps accepted envelopes remembered, dead, or dead before the guard accepts again |
| ReplayProtocol.DroppedRowIsDead | hub/src/auth.rs:64-66 | a row the sweep prunes or a restore skips belongs to an envelope past its drift window, despite the truncated second |
| ReplayProtocol.ExtraSecondNeeded | hub/src/auth.rs:43-66 | without the extra second a restore can skip a row whose envelope still verifies |
| ReplayProtocol.OneDriftIsNotEnough | hub/src/auth.rs:16-40 | remembering for one drift window leaves a replayable envelope |
| ReplayProtocol.AcceptedTwiceIff | hub/src/auth.rs:40-332 | for every stall and margin, some run accepts an envelope twice exactly when one of those two conditions fails |
| ReplayProtocol.EarlyBootAcceptsTwice | hub/src/auth.rs:195-202 | a run that boots without the table at the instant of an acceptance accepts the same envelope again when the window ends |
| ReplayProtocol.StalledRequestAcceptedTwice | hub/src/auth.rs:260-332 | a run in which two requests stall one after the other, and the second claims after the first one's entry was swept |
| ReplayProtocol.SweepForgetsOnlyTheDead | hub/src/auth.rs:301-332 | at any moment after a sweep, the guard knows exactly the same envelopes in drift as if it had not swept |
| ReplayProtocol.SweepForgetsExactly | hub/src/auth.rs:301-332 | a sweep forgets exactly the entries 241 seconds old and the rows 241 whole seconds old, or no row when the store fails |
| ReplayProtocol.RestartKnowsTheTable | hub/src/auth.rs:131-202 | a restart knows exactly the rows younger than that, at their whole seconds, and nothing that was in flight; a blind one knows nothing and refuses for exactly 240 seconds |
| ReplayProtocol.FirstClaimWrites | hub/src/auth.rs:260-289 | a first claim whose write reaches the disk leaves one row of its own second, and a repeat writes nothing |
| Auth.ReplayGuard.Restore | hub/src/auth.rs:131-156 | reads back exactly the rows past the cutoff second, and waits for nothing |
| Auth.ReplayGuard.Boot | hub/src/auth.rs:195-202 | starts empty beside the same table and refuses for the memory window |
| Auth.ReplayGuard.Claim | hub/src/auth.rs:260-289 | the insert overwrites, only the first goes to disk, and only a committed first claim is accepted |
| Auth.ReplayGuard.VerifyCharging | hub/src/auth.rs:432-493 | lets a request through exactly when it is genuine, in drift, new, within quota and durably recorded; one refused before the claim leaves the guard as it was |
| Auth.RequestIsTwoSteps | hub/src/auth.rs:432-493 | an uninterrupted request is exactly the step system's arrival followed by its claim |
| FaucetPricing.QuotesRoundTrip | hub/src/faucet_pow.rs:119-189 | the work quoted back from a target is the work asked for, for every u64 |
| FaucetPricing.TargetsAndHashes | hub/src/faucet_pow.rs:119-189 | a target costs at least n hashes exactly when it is at most the target of n |
| FaucetPricing.PriceNeverFalls | hub/src/faucet_pow.rs:167-173 | the price never falls as a network takes more grants |
| FaucetPricing.OverflowsOnlyAtTheEnd | hub/src/faucet_pow.rs:167-173 | the one addition that can overflow does so exactly at 2^64-1 grants with no free band and a band of one |
| FaucetPricing.CostWithinTheCap | hub/src/faucet_pow.rs:167-173 | free + k*step grants cost base * (free + step * (2^(k+1) - 2)) while nothing saturates and k is within the cap |
| FaucetPricing.CostOfBands | hub/src/faucet_pow.rs:129-173 | free + k*step grants cost base * free + base * step * w for every k, where w is 2^(k+1) - 2 up to the cap and 2^21 - 2 + (k - 20) * 2^20 past it |
| ChallengeProtocol.RedeemedAtMostOnce | hub/src/faucet_pow.rs:322-554 | every challenge is redeemed successfully at most once across issue, redeem, sweep and restart |
| ChallengeProtocol.RedeemableIff | hub/src/faucet_pow.rs:322-342 | a redemption is possible exactly for a challenge the book holds, by the key it was issued to, unredeemed, unexpired and solved |
| ChallengeProtocol.RedeemedFairly | hub/src/faucet_pow.rs:322-502 | every redemption of every run was solved, by the key the challenge was issued to, and no later than ten minutes after its issue |
| ChallengeProtocol.RedemptionIsRemembered | hub/src/faucet_pow.rs:385-554 | in every run, through sweeps and restarts until an hour past its expiry, a redeemed challenge is answered as redeemed |
| ChallengeProtocol.ForgetsExactly | hub/src/faucet_pow.rs:385-554 | a sweep forgets exactly unredeemed challenges past their expiry and redeemed ones an hour past it, and a restart loads exactly the rest |
| ChallengeProtocol.OutstandingIsExact | hub/src/faucet_pow.rs:452-554 | from an empty book, over every run whose restarts each find at most one live row per key, `outstanding` is one-to-one onto the unredeemed challenges held |
| ChallengeProtocol.RestartIsExactIff | hub/src/faucet_pow.rs:385-408 | a restart rebuilds that map exactly when the table holds at most one live row per key |
| ChallengeProtocol.ReplacedChallengeComesBack | hub/src/faucet_pow.rs:385-475 | issue twice, restart, and both challenges are redeemed |
| ChallengeProtocol.SweepChangesNoRedemption | hub/src/faucet_pow.rs:536-554 | at any moment after a sweep, exactly the same challenges can be redeemed as if it had not run |
| FaucetPow.LoadRows | hub/src/faucet_pow.rs:385-408 | the loading loop holds exactly the rows within their horizon and names one live challenge per key |
| FaucetPow.ChallengeBook.IssueChallenge | hub/src/faucet_pow.rs:452-475 | writes first, then replaces what the key had outstanding |
| FaucetPow.ChallengeBook.RedeemChallenge | hub/src/faucet_pow.rs:481-502 | succeeds exactly for a challenge held, issued to the caller, unredeemed, unexpired and solved whose write commits, and spends it durably and in memory; otherwise refuses with the first failing check and no change |
| FaucetPow.ChallengeBook.Check | hub/src/faucet_pow.rs:522-531 | Ok exactly for a challenge held, issued to the caller, unredeemed, unexpired and solved, and otherwise each error exactly in its case; spends nothing |
| SpendPlanning.PlanSpend | agent-sdk-py/itx_agent_sdk/client.py:60-78 | uses only unpending outputs of the wallet, covers the need with no more outputs than any covering choice, and fails exactly when everything unpending falls short |
| SpendPlanning.PlanSend | agent-sdk-py/itx_agent_sdk/client.py:737-771 | inputs = amount + change + fee, a change output exactly when there is change, and change smaller than every input |
| TaskScan.ListTasksScan | agent-sdk-py/itx_agent_sdk/client.py:371-420 | on a static board whose pages are cut, returns exactly the newest min(total, max) tasks in order when the total is reported, the oldest when not, within 1 + ceil(max/200) requests |
| SpendCommitment.Preimage | agent-sdk-py/itx_agent_sdk/envelope.py:53-100 | produces the encoding of the spend its hexadecimal stands for, and otherwise the first failing check, a missing field and malformed hexadecimal included |
| SpendCommitment.EverySpendIsAccepted | agent-sdk-py/itx_agent_sdk/envelope.py:81-98 | every spend with a 32-byte hash, 1 to 2^32-1 payments, u64 values and keys of 1 to 255 bytes has a hexadecimal form that no check refuses and that reads back as the same spend |
| SpendCommitment.HexIgnoresCase | agent-sdk-py/itx_agent_sdk/envelope.py:81-95 | hexadecimal reads the same in either case |
| SpendCommitment.HexIgnoresSpaces | agent-sdk-py/itx_agent_sdk/envelope.py:81-95 | and with white space after any whole number of bytes |
| SpendCommitment.DecodeInvertsEncode | agent-sdk-py/itx_agent_sdk/envelope.py:53-100 | a decoder recovers the output hash and the full ordered payment list |
| SpendCommitment.EncodingIsInjective | agent-sdk-py/itx_agent_sdk/envelope.py:53-100 | two different valid spends never produce the same bytes |
| Names.SplitInvertsRender | hub/src/names.rs:125-135 | the two words can be read back from a rendered name |
| Names.RenderIsInjective | hub/src/names.rs:125-135 | rendering is injective on nonempty lowercase words |
| Names.NameRegistry.Draw | hub/src/names.rs:220-241 | probes and wrapping scan give an unused candidate name, or none exactly when every candidate is taken |
| Names.NameRegistry.Assign | hub/src/names.rs:207-215 | the same name for a known key, a fresh one for a new key, refused exactly when all are taken, and nobody else's name changes |
| Names.NameRegistry.RestoreAll | hub/src/names.rs:179-182 | a prior registry's own map comes back whole with exactly its names taken |
| Names.NameRegistry.Remaining | hub/src/names.rs:254-256 | exact when the pool's pairs are distinct and every taken name comes from it |
| Names.NamesArePermanent | hub/src/names.rs:179-241 | over every run, with a wordlist that may change between any two steps, no two keys share a name and no name ever changes |

## Left out

- Cryptography: signatures, hashes and key derivation are opaque values, and whether one verifies is a parameter.
- HTTP handlers, rate limits, metrics, admin and console code, and the SDK's command line and files.
- The durable store, beyond committed, failed, and failed-but-written outcomes for the replay table and the challenge table; the board's rollbacks after a failed commit are not modelled.
- Chain reorganisations, several hubs on one store, and rebuilding a lost payout whose transaction was never recorded.
- Mempool.NodeAcceptsOnlySteps: a transaction without inputs and without value, which the node also accepts, is not a step; block verification and the order of the queue are not modelled.
- PayoutInvariant.StepKeepsInv: the hub's send, resend and confirm are single steps; what a record made after its read can do is `PayoutLost.LateRecordIff`.
- A restart of the replay guard drops the requests in flight.
- The legacy single-answer mutators are not steps; a legacy disputable task is an initial state.
- Trade ids, order listings by owner, leaderboards, allocated-bounty totals, descriptions and capability tags: they would only add easy members.
- The sweeps over all tasks other than `expire_claims` are modelled as their effect on each task, not as loops.
- Floating point, and the wall clock read inside methods, which is passed in.
- ExchangeBoard.TaskBoard.PlaceOrder: what a panic leaves behind is not modelled; it unwinds over the handler's private copy.
- ReplayProtocol.NeverAcceptedTwice: runs outside its two timing conditions are excluded, because there the property is false.
- SpendCommitment.Preimage: which values `int` converts is not modelled; one it does not convert is a missing one.
