# PulsarTrack contracts: a verified model

A Dafny model of thirteen of PulsarTrack's Soroban contracts, and proofs of what they promise over every run
of calls. Each contract is one module:

| file | contract |
|---|---|
| LiquidityPool.dfy | proportional shares, loans against pooled funds |
| EscrowVault.dfy | several payout paths out of one shared balance |
| CampaignOrchestrator.dfy | campaign budgets paid out view by view |
| RewardsDistributor.dfy | budgeted awards that vest over a year |
| SubscriptionManager.dfy | upgrades with prorated credit, stacking renewals |
| RevenueSettlement.dfy | basis-point splits and the payouts behind them |
| GovernanceDao.dfy | tallies, and the test that decides a proposal |
| MultisigTreasury.dfy | changing signers, counted approvals, single payments |
| PerformanceOracle.dfy | an indexed list and an averaging loop |
| CampaignLifecycle.dfy | a state machine that logs its moves |
| CampaignAnalytics.dfy | a ring buffer of snapshots |
| GovernanceToken.dfy | conservation, cap, allowances, voting power |
| RecurringPayment.dfy | scheduled payments and their rate |

Chain.dfy holds what they share (addresses, panics, the external token, Rust's integer operators), Arith.dfy and
Sums.dfy the facts about floors and about sums over maps, Runs.dfy what a run of calls is and adds up.

## How a contract is modelled

- `State` holds the contract's storage maps, the balances of the token it uses, and the ledger clock where the
  code reads it. `Call` is an entry point with its arguments, or a move of the environment: time passes (`Tick`,
  never backwards), or tokens move without the contract (`Outside`, `TokenMoves`).
- `Step` gives the state a successful call leads to, or `None` for a panic; `Next` leaves the state alone on a
  panic, since a panicking call writes nothing. A run is any finite sequence of calls, failing ones included.
- Beside the laws each module says, call by call, exactly when a call succeeds and what it leaves, and for whatever a
  creation sets, that every record on file goes back to one call of the run, on that call's terms.
- The class in each module is the contract itself. Its methods change the storage fields in the order the
  contract does, loops included, and each is proved to take the storage to `Next` of the call. The laws are then
  proved of `Next`, for all runs.
- What a run adds up is a sum over its calls (`Runs.Collect`). Payouts, refunds, claims, charges and view payments
  are measured on token balances, not on the contract's own records; the principal a repayment settles and the
  recurring contract's counters are read off the records. Beside the run laws each contract that moves tokens has a
  lemma that says, for every account, what a call adds to it or takes from it.

## Ground rules

- An address that authorises a call is a `Party`, any address but the contract's own. Beneficiaries, claimants
  and recipients may be the contract itself; custody laws account for that instead of excluding it.
- The external token refuses negative amounts and amounts above the balance; its code is not part of this model.
- Integers are unbounded except where the code saturates, casts or counts into a limit that matters, which is
  written out (`AsU32`, saturating sums, the 64-bit sums of the oracle, the unsigned subtraction of the
  treasury). The release profile checks overflow (Cargo.toml:52), so elsewhere an overflow is a panic: one more
  rejected call, which no law over a single run can notice. A law that says when a call succeeds, or compares two
  runs (a split deposit or withdrawal, votes in another order, awards without the claims), speaks of calls that do
  not overflow.
- Division truncates toward zero (`Quot`).

## Where a promise does not hold

The code is modelled as it is. Each time the exact condition is proved:

- Redeeming freshly minted shares can return more than the deposit, exactly when the pool has liquidity but no
  shares (`LiquidityPool.DepositThenRedeem`, reached in `StrayLiquidityIsReachable`).
- The pool's books run ahead of its tokens by the principal repaid less the donations (`LiquidityPool.CustodyLaw`),
  and exactly that lead is withheld from withdrawals the books cover, after every run
  (`LiquidityPool.ReachableWithdrawalSucceedsIff`), as after a deposit, a loan and its repayment in full
  (`RepaymentStrandsProvider`). With no loan open the sole provider can redeem all its shares exactly when there is no
  lead and no repayment fell short (`AllRepaidMeansRedeemable`).
- Any repayment closes a loan, whatever it pays. It takes the whole principal off the books exactly when it covers it
  (`LiquidityPool.RepaymentSettlesIff`); what it falls short by is never available again (`OrphanLaw`,
  `OrphanedPrincipalIsLost`), reached in `ShortRepaymentStrandsProvider`.
- An escrow's recorded amounts stop adding up exactly when a full release or refund overwrites what an earlier
  settlement recorded (`EscrowVault.RecordLaw`, reached in `BrokenRecordIsReachable`).
- A campaign's transition log stops being a path to its stage exactly when a registration finds moves already logged
  (`CampaignLifecycle.LogIsAPath`, reached in `LateRegistrationBreaksLog`).
- The power recorded for a proposal is within the tokens there are as long as token moves leave every voter on it the
  power it voted with (`GovernanceDao.PowerWithinBalances`); moved on between two votes, tokens vote twice
  (`MovedTokensVoteTwice`).
- A renewal lowers the rate at which unused time is credited: while any time is left, the credit is the worth of it
  exactly when there was no renewal since the current start, and less otherwise
  (`SubscriptionManager.CreditForUnusedTime`, reached in `StackedRenewalIsCreditedOnce`).
- Removing a signer leaves too few exactly when the list held more than length - required copies of it, which a list
  of distinct signers never does (`MultisigTreasury.RemovalKeepsThreshold`, reached in
  `RepeatedSignerBreaksThreshold`).
- The governance token checks the sign of an amount in `transfer` only. A call keeps balances non-negative and the
  supply under its cap in every state exactly when it passes the missing check (`GovernanceToken.SafeIffSignChecked`),
  and lowers balances only with consent exactly under a slightly weaker one (`BalancesFallOnlyByConsent`); the cases
  are reached in `NegativeAmountsOverdraw` and `NegativeBurnBreaksCap`.
- The comment in revenue-settlement speaks of rounding dust of one to three units; the dust is always zero
  (`RevenueSettlement.SplitIsExact`), because the publisher's part is computed as the remainder.

And behaviour that contradicts no promise of the code but that a caller should know, proved for every run:

- Registering is open to anyone and takes a campaign over: its advertiser is always the last to have registered it
  (`CampaignLifecycle.AdvertiserIsLastRegistrant`, `RegistrationTakesOver`).
- The treasury counts approvals by distinct signer but rejections by call, so one signer alone can reject
  (`MultisigTreasury.OneSignerCanReject`, `OneOfThreeRejects`).
- A proposal that was executed can still be cancelled by its proposer (`GovernanceDao.StatusesFollow`,
  `ExecutedThenCancelled`).
- A transaction's expiry binds its approvals only: once approved it stays payable for good
  (`MultisigTreasury.ApprovedStaysPayable`).
- However many approvers an escrow names, one approval opens its gate, and an escrow that names none can never be
  released (`EscrowVault.OneApprovalOpensTheGate`, `WithoutApproversNoRelease`).
- The platform fees collected by the campaign contract never leave it (`CampaignOrchestrator.FeesNeverLeave`).
- Delegating voting power gives the delegate none (`GovernanceToken.DelegatingSilences`).

## Model

| member | source | states |
|---|---|---|
| LiquidityPool.Pool.Deposit | contracts/liquidity-pool/src/lib.rs:86-153 | one deposit takes the stored pool to exactly the specified next state, returns the minted shares, and a panic changes nothing |
| LiquidityPool.Pool.Withdraw | contracts/liquidity-pool/src/lib.rs:155-211 | same for a withdrawal; the writes made before a refused transfer are undone |
| LiquidityPool.Pool.Borrow | contracts/liquidity-pool/src/lib.rs:213-264 | same for a loan, the refusals of a second loan and of an empty pool included |
| LiquidityPool.Pool.Repay | contracts/liquidity-pool/src/lib.rs:266-302 | same for a repayment |
| LiquidityPool.DepositCreditsFloor | contracts/liquidity-pool/src/lib.rs:111-116 | the provider gets m shares with m*liquidity <= amount*shares < (m+1)*liquidity, and nobody else any |
| LiquidityPool.WithdrawalPaysFloor | contracts/liquidity-pool/src/lib.rs:178-190 | the provider gets p tokens with p*shares_total <= shares*liquidity < (p+1)*shares_total |
| LiquidityPool.NegativeWithdrawPanics | contracts/liquidity-pool/src/lib.rs:167-178 | redeeming negative shares always panics: a withdrawal never mints |
| LiquidityPool.ReachableInv | contracts/liquidity-pool/src/lib.rs:111-123 | in every reachable pool liquidity >= total shares = sum of provider shares >= 0, 0 <= borrowed <= liquidity, open loans <= borrowed, utilisation <= 100 |
| LiquidityPool.PriceNeverFalls | contracts/liquidity-pool/src/lib.rs:112-123 | no call lowers liquidity per share |
| LiquidityPool.OthersKeepValue | contracts/liquidity-pool/src/lib.rs:178-190 | no call by anyone else lowers what a provider can redeem |
| LiquidityPool.IdleProviderNeverLoses | contracts/liquidity-pool/src/lib.rs:178-190 | through any run in which a provider does not act, its redeemable value never falls |
| LiquidityPool.PaymentsReachTheirParties | contracts/liquidity-pool/src/lib.rs:103-109 | what each call moves, in every account: a deposit and a repayment in, a payout to the provider, a loan to the borrower |
| LiquidityPool.DepositThenRedeem | contracts/liquidity-pool/src/lib.rs:112-190 | after a deposit, redeeming the minted shares always succeeds and gains nothing, unless the pool had liquidity but no shares; then it succeeds exactly when nothing is on loan and the liquidity is there, and gains all of it |
| LiquidityPool.WithdrawSucceedsIff | contracts/liquidity-pool/src/lib.rs:167-207 | a withdrawal succeeds exactly for shares held whose payout is neither on loan nor missing from the pool's tokens |
| LiquidityPool.ReachableWithdrawalSucceedsIff | contracts/liquidity-pool/src/lib.rs:167-207 | after every run from a fresh pool a withdrawal succeeds exactly for shares held, up to what the books call available less their lead over the tokens (principal repaid - donations, the tokens it started with included) |
| LiquidityPool.DepositSucceedsIff | contracts/liquidity-pool/src/lib.rs:92-102 | a deposit succeeds exactly for a positive amount the provider holds |
| LiquidityPool.DepositLeaves | contracts/liquidity-pool/src/lib.rs:118-145 | liquidity and the provider's record grow by the deposit, shares by the mint (one for one into an empty pool), and nothing else changes |
| LiquidityPool.WithdrawLeaves | contracts/liquidity-pool/src/lib.rs:187-207 | liquidity and the provider's record fall by the tokens it received, shares by those redeemed, and nothing else changes |
| LiquidityPool.BorrowSucceedsIff | contracts/liquidity-pool/src/lib.rs:218-240 | a loan succeeds exactly for a campaign without an open one, of an amount up to what the books call available less their lead |
| LiquidityPool.ReachableBorrowSucceedsIff | contracts/liquidity-pool/src/lib.rs:218-240 | after every run from a fresh pool, so that loans to one campaign never stand in the way of another's |
| LiquidityPool.BorrowLeaves | contracts/liquidity-pool/src/lib.rs:224-260 | the loan is on record, its principal lent, and the rate r is the whole percentage: r*liquidity <= 100*borrowed < (r+1)*liquidity |
| LiquidityPool.RepaySucceedsIff | contracts/liquidity-pool/src/lib.rs:266-286 | a repayment succeeds exactly for the campaign's own borrower, of any amount it holds, nothing included |
| LiquidityPool.RepayLeaves | contracts/liquidity-pool/src/lib.rs:287-301 | liquidity grows by it, and the rate is that of the new debt against the liquidity before it |
| LiquidityPool.RepaymentStrandsProvider | contracts/liquidity-pool/src/lib.rs:288-301 | deposit, loan, repayment in full: nothing is on loan, the shares stand for more than the pool holds, and redeeming them all panics |
| LiquidityPool.RepaymentSettlesIff | contracts/liquidity-pool/src/lib.rs:287-301 | any repayment closes the loan, and takes its whole principal off the books exactly when the amount covers it |
| LiquidityPool.OrphanLaw | contracts/liquidity-pool/src/lib.rs:287-301 | over every run, total_borrowed - the sum of open loans grows by exactly the sum of borrowed - min(amount, borrowed) over repayments |
| LiquidityPool.WithNoLoanOpen | contracts/liquidity-pool/src/lib.rs:167-207 | after every run that leaves no loan open, total_borrowed is exactly the sum of the shortfalls, and held shares are redeemable exactly up to the liquidity less it and less the lead |
| LiquidityPool.AllRepaidMeansRedeemable | contracts/liquidity-pool/src/lib.rs:167-207 | after such a run every held share can be redeemed if no repayment fell short and donations covered the principal repaid, and the sole provider can redeem all its shares only then |
| LiquidityPool.OrphanedPrincipalIsLost | contracts/liquidity-pool/src/lib.rs:287-301 | through every later run the pool calls that principal unavailable |
| LiquidityPool.ShortRepaymentStrandsProvider | contracts/liquidity-pool/src/lib.rs:287-301 | deposit a, lend b, take back r < b: no loan is open, the borrower keeps b - r, the sole provider cannot redeem its shares; with r = 0 the books match the tokens |
| LiquidityPool.LoanStaysUntilClosed | contracts/liquidity-pool/src/lib.rs:224-301 | on every run a loan stands as it was made, unless a successful repayment by its own borrower closed it |
| LiquidityPool.StrayLiquidityIsReachable | contracts/liquidity-pool/src/lib.rs:288-301 | that exception is reached by a loan of nothing repaid into an emptied pool, with nothing left on loan |
| LiquidityPool.StrayLiquidityIsGained | contracts/liquidity-pool/src/lib.rs:112-190 | and there a deposit redeemed at once gains exactly the stray liquidity |
| LiquidityPool.TwoDepositsMintNoMore | contracts/liquidity-pool/src/lib.rs:112-116 | two deposits mint at most what one deposit of the sum mints |
| LiquidityPool.SplitDepositYieldsNoMore | contracts/liquidity-pool/src/lib.rs:112-145 | any split of a deposit into consecutive ones yields at most the shares of the single deposit |
| LiquidityPool.TwoRedemptionsPayNoMore | contracts/liquidity-pool/src/lib.rs:178-190 | two redemptions pay at most what one redemption of the sum pays |
| LiquidityPool.SplitWithdrawalYieldsNoMore | contracts/liquidity-pool/src/lib.rs:178-210 | any split of a redemption into consecutive ones yields at most the tokens of the single one |
| LiquidityPool.UtilizationAtMost100 | contracts/liquidity-pool/src/lib.rs:237 | the utilisation rate is the floor of 100*borrowed/liquidity, at most 100, so the 32-bit cast loses nothing |
| LiquidityPool.CustodyLaw | contracts/liquidity-pool/src/lib.rs:288-301 | over every run, (liquidity - borrowed) - tokens held changes by exactly the sum of min(amount, borrowed) over repayments less the donations |
| LiquidityPool.CustodyWithoutRepayments | contracts/liquidity-pool/src/lib.rs:118-123 | on runs of deposits, withdrawals and loans the pool holds exactly liquidity - borrowed |
| EscrowVault.Vault.CreateEscrow | contracts/escrow-vault/src/lib.rs:182-275 | creation takes the vault to exactly the specified next state; the loop registers every listed approver |
| EscrowVault.Vault.RegisterApprovers | contracts/escrow-vault/src/lib.rs:255-263 | the loop adds exactly the listed approvers of this escrow, duplicates once |
| EscrowVault.Vault.ApproveRelease | contracts/escrow-vault/src/lib.rs:278-334 | same for an approval |
| EscrowVault.Vault.ReleaseEscrow | contracts/escrow-vault/src/lib.rs:337-391 | same for a full release |
| EscrowVault.Vault.ReleaseSome | contracts/escrow-vault/src/lib.rs:394-445 | same for a partial release |
| EscrowVault.Vault.RefundEscrow | contracts/escrow-vault/src/lib.rs:448-494 | same for a refund |
| EscrowVault.Vault.PayParties | contracts/escrow-vault/src/lib.rs:549-562 | both parties are paid or nobody is |
| EscrowVault.Vault.SettleDispute | contracts/escrow-vault/src/lib.rs:497-592 | same for a settlement; a first transfer is undone when the second is refused |
| EscrowVault.Vault.HoldForFraud | contracts/escrow-vault/src/lib.rs:149-179 | same for a fraud hold |
| EscrowVault.Vault.RecordPerformance | contracts/escrow-vault/src/lib.rs:595-634 | same for a performance report |
| EscrowVault.Vault.SetFraudContract | contracts/escrow-vault/src/lib.rs:121-132 | only the administrator names the fraud contract |
| EscrowVault.Vault.SetDisputeContract | contracts/escrow-vault/src/lib.rs:135-146 | only the administrator names the dispute contract |
| EscrowVault.RunKeepsInv | contracts/escrow-vault/src/lib.rs:284-328 | on every run the approval counter is the number of distinct approvals, all by required approvers, and every lock stays within its amount |
| EscrowVault.CustodyLaw | contracts/escrow-vault/src/lib.rs:212-237 | over every run, tokens held - sum of locked amounts changes by exactly what strays to the vault |
| EscrowVault.ReachableSolvent | contracts/escrow-vault/src/lib.rs:357-376 | from a fresh vault tokens held = sum of locked + strays, so every lock is funded |
| EscrowVault.PayoutReachesItsParties | contracts/escrow-vault/src/lib.rs:357-376 | every payout moves exactly what it owes: to the beneficiary, the depositor, or claimant and respondent, out of the vault and no other account |
| EscrowVault.PaidPlusLocked | contracts/escrow-vault/src/lib.rs:413-431 | over every run the tokens that payouts of an escrow move out of the vault + its lock stay constant: the lock never rises, zero is absorbing |
| EscrowVault.EscrowPaysItsAmount | contracts/escrow-vault/src/lib.rs:212-237 | from creation on, tokens moved out of the vault for the escrow + locked = amount |
| EscrowVault.CreateLocksAmount | contracts/escrow-vault/src/lib.rs:212-237 | a new escrow gets a fresh number, takes its amount from the depositor, locks all of it and has no approvals |
| EscrowVault.EscrowsKeepTheirTerms | contracts/escrow-vault/src/lib.rs:218-263 | every escrow on record after a run was created by one call of it, with that call's depositor, beneficiary, amount, threshold, lock, expiry and approvers, and no call changed them since |
| EscrowVault.ReleasePaysTheNamedBeneficiary | contracts/escrow-vault/src/lib.rs:182-391 | create, approve, wait, release: exactly the amount moves from the depositor to the beneficiary the creation named |
| EscrowVault.CreateSucceedsIff | contracts/escrow-vault/src/lib.rs:198-217 | creation succeeds exactly for a positive amount the depositor holds and a threshold up to 100 |
| EscrowVault.ApproveSucceedsIff | contracts/escrow-vault/src/lib.rs:284-328 | an approval succeeds exactly for a required approver that has not approved, until the release, and adds it to the approvers |
| EscrowVault.PayoutsLeave | contracts/escrow-vault/src/lib.rs:372-578 | which phase and which record each payout leaves |
| EscrowVault.ScoreIsLastReported | contracts/escrow-vault/src/lib.rs:595-634 | on every run an escrow's score is the last one of at most 100 the oracle reported |
| EscrowVault.ContractsAreLastNamed | contracts/escrow-vault/src/lib.rs:121-146 | on every run the fraud and dispute contracts are the last ones the administrator named |
| EscrowVault.RecordStep | contracts/escrow-vault/src/lib.rs:469-480 | one call keeps locked + released + refunded = amount exactly when it is not a full release or refund that finds something refunded |
| EscrowVault.SpentRecordIsFrozen | contracts/escrow-vault/src/lib.rs:352-355 | once nothing is locked the recorded amounts never change again |
| EscrowVault.RecordLaw | contracts/escrow-vault/src/lib.rs:552-567 | over every run the recorded amounts sum to the total exactly when no full release or refund followed a settlement that paid the respondent |
| EscrowVault.RefundAfterSettlementBreaksRecord | contracts/escrow-vault/src/lib.rs:485-487 | a settlement of r to the respondent followed by a refund leaves the record r short |
| EscrowVault.BrokenRecordIsReachable | contracts/escrow-vault/src/lib.rs:469-487 | the same from a fresh vault: create, settle, refund |
| EscrowVault.ReleaseIffCanRelease | contracts/escrow-vault/src/lib.rs:666-741 | with funds locked an authorised release succeeds exactly when can_release holds and the escrow is not disputed |
| EscrowVault.PartialReleaseIffCanRelease | contracts/escrow-vault/src/lib.rs:394-411 | same for a partial release within the lock |
| EscrowVault.OneApprovalOpensTheGate | contracts/escrow-vault/src/lib.rs:709-741 | in every reachable vault can_release holds exactly from the time lock on, with at least one approval and no failing score, however many approvers were named |
| EscrowVault.WithoutApproversNoRelease | contracts/escrow-vault/src/lib.rs:284-299 | on every run an escrow created without approvers pays nothing by a release |
| EscrowVault.ExpiredIsRefundable | contracts/escrow-vault/src/lib.rs:448-487 | a refund succeeds exactly when expired with funds locked, and returns the whole lock |
| EscrowVault.SettlementIffOpen | contracts/escrow-vault/src/lib.rs:509-540 | an authorised settlement within the lock succeeds exactly when the escrow is neither released nor refunded |
| EscrowVault.HeldEscrowPaysNoRelease | contracts/escrow-vault/src/lib.rs:709-712 | between a hold and a settlement no run pays out through a release, full or partial |
| EscrowVault.HoldStopsReleases | contracts/escrow-vault/src/lib.rs:149-170 | once the fraud contract holds an escrow, no run without a settlement of it moves tokens by a release |
| EscrowVault.StrangersGetNothing | contracts/escrow-vault/src/lib.rs:345-350 | before it expires, no run of calls by others than its depositor, the administrator and the dispute contract moves a token out of an escrow |
| CampaignOrchestrator.Orchestrator.CreateCampaign | contracts/campaign-orchestrator/src/lib.rs:207-314 | creation takes the contract to exactly the specified next state |
| CampaignOrchestrator.Orchestrator.View | contracts/campaign-orchestrator/src/lib.rs:317-410 | same for a view |
| CampaignOrchestrator.Orchestrator.PauseCampaign | contracts/campaign-orchestrator/src/lib.rs:413-438 | same for pausing |
| CampaignOrchestrator.Orchestrator.ResumeCampaign | contracts/campaign-orchestrator/src/lib.rs:441-466 | same for resuming, a cancelled campaign included |
| CampaignOrchestrator.Orchestrator.CancelCampaign | contracts/campaign-orchestrator/src/lib.rs:469-516 | same for cancelling; the emptied budget comes back when the transfer is refused |
| CampaignOrchestrator.Orchestrator.SetPlatformFee | contracts/campaign-orchestrator/src/lib.rs:552-567 | same for the fee setting |
| CampaignOrchestrator.Orchestrator.VerifyPublisher | contracts/campaign-orchestrator/src/lib.rs:519-549 | only the administrator verifies a publisher, and nothing else changes |
| CampaignOrchestrator.RunKeepsInv | contracts/campaign-orchestrator/src/lib.rs:349-397 | on every run views <= target, each campaign's daily counts sum to its views and stay within the daily limit, fees sum to the total |
| CampaignOrchestrator.CustodyLaw | contracts/campaign-orchestrator/src/lib.rs:249-303 | over every run, fee changes and resume after cancel included, tokens held - budgets - fees changes by exactly the donations |
| CampaignOrchestrator.ReachableSolvent | contracts/campaign-orchestrator/src/lib.rs:249-303 | from a fresh contract tokens held = remaining budgets + fees + donations |
| CampaignOrchestrator.FlowLaw | contracts/campaign-orchestrator/src/lib.rs:249-510 | over every run tokens held change by exactly what creations charge and gifts bring, less what views pay and cancellations refund, each read off its party's account |
| CampaignOrchestrator.FeesNeverLeave | contracts/campaign-orchestrator/src/lib.rs:284-290 | on every run collected fees never fall and are held beside all remaining budgets |
| CampaignOrchestrator.CancelAlwaysPays | contracts/campaign-orchestrator/src/lib.rs:480-510 | cancelling succeeds exactly for the advertiser of a refundable campaign and pays exactly the remaining budget |
| CampaignOrchestrator.CallsSucceedIff | contracts/campaign-orchestrator/src/lib.rs:207-567 | exactly when each call succeeds; in a solvent contract no transfer out is ever refused |
| CampaignOrchestrator.ViewCounts | contracts/campaign-orchestrator/src/lib.rs:383-397 | a view counts once, for its campaign and its calendar day, and completes the campaign exactly when it reaches the target |
| CampaignOrchestrator.StatusAfter | contracts/campaign-orchestrator/src/lib.rs:413-489 | which status the other calls leave, with views and daily counts as they were |
| CampaignOrchestrator.PaymentsReachTheirParties | contracts/campaign-orchestrator/src/lib.rs:249-255 | what each call moves, in every account: budget and fee from the advertiser, the price to the publisher, the rest to the advertiser |
| CampaignOrchestrator.ViewPaidIffGuardsHold | contracts/campaign-orchestrator/src/lib.rs:331-381 | a view brings its publisher exactly the price, and succeeds exactly when its guards hold and the price is not negative |
| CampaignOrchestrator.BudgetLaw | contracts/campaign-orchestrator/src/lib.rs:383-386 | over every run remaining + tokens received by publishers + tokens refunded stay constant per campaign, and publishers received the price of each new view |
| CampaignOrchestrator.BudgetIsSpentOrRefunded | contracts/campaign-orchestrator/src/lib.rs:249-303 | from creation on, budget = remaining + views*price + tokens refunded, and publishers received views*price |
| CampaignOrchestrator.CreateAccountsForBudget | contracts/campaign-orchestrator/src/lib.rs:240-256 | creation charges the budget plus at most a tenth and accounts for all of it |
| CampaignOrchestrator.CompletionRateIsAPercentage | contracts/campaign-orchestrator/src/lib.rs:582-603 | the completion rate is at most 100, and 100 exactly at the target |
| CampaignOrchestrator.CampaignsKeepTheirTerms | contracts/campaign-orchestrator/src/lib.rs:218-285 | every campaign on record after a run was created in it by its advertiser, with a budget and a duration in range and the fee of that moment, and no call changed its terms since |
| CampaignOrchestrator.SettingsStayWithoutAdmin | contracts/campaign-orchestrator/src/lib.rs:519-567 | through any run without calls of the administrator the fee and the verified publishers stay as they are |
| CampaignOrchestrator.PublishersStayVerified | contracts/campaign-orchestrator/src/lib.rs:519-549 | on every run a verified publisher stays verified |
| CampaignOrchestrator.SettingsAreAsNamed | contracts/campaign-orchestrator/src/lib.rs:519-567 | on every run the fee is the last one of at most ten the administrator set, and the verified publishers are exactly those it named |
| CampaignOrchestrator.IdleCampaignStays | contracts/campaign-orchestrator/src/lib.rs:413-489 | through any run without calls of its advertiser and validated views a campaign stays as it is |
| RewardsDistributor.Distributor.CreateRewardProgram | contracts/rewards-distributor/src/lib.rs:72-120 | opening a programme takes the distributor to exactly the specified next state |
| RewardsDistributor.Distributor.DistributeRewards | contracts/rewards-distributor/src/lib.rs:122-199 | same for an award |
| RewardsDistributor.Distributor.ClaimRewards | contracts/rewards-distributor/src/lib.rs:201-244 | same for a claim; pays vested - claimed |
| RewardsDistributor.RunKeepsBooks | contracts/rewards-distributor/src/lib.rs:148-187 | on every run the awards of all users sum to what the programmes gave out |
| RewardsDistributor.RunKeepsInv | contracts/rewards-distributor/src/lib.rs:148-221 | with non-negative amounts, claimed <= vested <= earned and every programme stays within budget, on every run |
| RewardsDistributor.VestedGrows | contracts/rewards-distributor/src/lib.rs:215-219 | vesting never falls with time or further awards and stays between 0 and the award |
| RewardsDistributor.FirstAwardVestsNothing | contracts/rewards-distributor/src/lib.rs:176-187 | right after a first award nothing has vested, and a claim panics |
| RewardsDistributor.FirstAwardThenClaim | contracts/rewards-distributor/src/lib.rs:176-236 | a first award of x, d seconds, and a funded claim bring the user exactly floor(x*min(d, year)/year) tokens |
| RewardsDistributor.VestingStartsWithFirstAward | contracts/rewards-distributor/src/lib.rs:176-187 | on every run of non-negative amounts a user's vesting starts at the time of the call that first gave it something |
| RewardsDistributor.EarnedIsAwarded | contracts/rewards-distributor/src/lib.rs:184-187 | on every run a user has earned exactly what was awarded to it |
| RewardsDistributor.ProgramsKeepTheirTerms | contracts/rewards-distributor/src/lib.rs:72-120 | every programme on record after a run was opened in it by the administrator, on its terms, is active, and gave out exactly its awards |
| RewardsDistributor.CallsSucceedIff | contracts/rewards-distributor/src/lib.rs:131-236 | exactly when each call succeeds |
| RewardsDistributor.ClaimedIsPaid | contracts/rewards-distributor/src/lib.rs:224-231 | through any run the claimed record is exactly the tokens paid |
| RewardsDistributor.ClaimPaysUser | contracts/rewards-distributor/src/lib.rs:215-236 | a claim moves what has vested and not been claimed from the distributor to its user; no other call moves any |
| RewardsDistributor.IdleRewardsStay | contracts/rewards-distributor/src/lib.rs:131-221 | through any run without the user's claims and the administrator's awards, earned and claimed stay as they are |
| RewardsDistributor.ClaimCatchesUp | contracts/rewards-distributor/src/lib.rs:215-231 | a funded claim attempt brings the total claimed to exactly what has vested; an unfunded one changes nothing |
| RewardsDistributor.PayoutIsWhatVested | contracts/rewards-distributor/src/lib.rs:201-231 | after any run and a last funded claim, total payout = floor(earned*min(t - start, year)/year) |
| RewardsDistributor.ReserveLaw | contracts/rewards-distributor/src/lib.rs:148-236 | over every run tokens held - all awards not yet claimed changes by exactly the donations less the awards |
| RewardsDistributor.FundedClaimsSucceed | contracts/rewards-distributor/src/lib.rs:215-236 | if what was sent to the distributor covers all awards, every user's claim is funded whatever the others claimed, and succeeds exactly when something more vested |
| RewardsDistributor.AwardsIgnoreClaims | contracts/rewards-distributor/src/lib.rs:165-187 | dropping every claim from a run leaves all awards and vesting starts as they were |
| RewardsDistributor.ScheduleIndependence | contracts/rewards-distributor/src/lib.rs:201-231 | interleaved claims do not change the total a user has been paid after a last funded claim |
| SubscriptionManager.Manager.NewSubscription | contracts/subscription-manager/src/lib.rs:233-278 | subscribing takes the contract to exactly the specified next state |
| SubscriptionManager.Manager.Upgrade | contracts/subscription-manager/src/lib.rs:294-356 | same for a tier change with prorated credit |
| SubscriptionManager.Manager.RenewNow | contracts/subscription-manager/src/lib.rs:371-401 | same for a renewal |
| SubscriptionManager.Manager.RenewExpired | contracts/subscription-manager/src/lib.rs:405-445 | same for an automatic renewal |
| SubscriptionManager.Manager.CancelRenewal | contracts/subscription-manager/src/lib.rs:454-465 | cancelling only switches the automatic renewal off |
| SubscriptionManager.Manager.RecordCampaignUsed | contracts/subscription-manager/src/lib.rs:473-483 | counts one campaign, and panics without a subscription |
| SubscriptionManager.Manager.RecordImpression | contracts/subscription-manager/src/lib.rs:487-497 | counts the impressions, and panics without a subscription |
| SubscriptionManager.PlanTable | contracts/subscription-manager/src/lib.rs:89-107 | a year costs ten months, the higher the rank the higher the price, a month has 30 days and a year 365 |
| SubscriptionManager.CreditWithinPayment | contracts/subscription-manager/src/lib.rs:118-130 | the credit never exceeds the payment, is never negative and never underflows for a stored subscription |
| SubscriptionManager.ChargesReachTreasury | contracts/subscription-manager/src/lib.rs:322-336 | every charge is the price less the credit, never negative, from the subscriber to the treasury and nowhere else |
| SubscriptionManager.OthersLeaveSubscription | contracts/subscription-manager/src/lib.rs:246-445 | through any run of calls for other users a subscription stays as it is |
| SubscriptionManager.CreditIsBackedByCash | contracts/subscription-manager/src/lib.rs:312-350 | on every run, since the last subscription: charged >= payment on record >= credit >= 0, upgrades <= rank <= 3, expiry = start + time bought + time lapsed |
| SubscriptionManager.CreditForUnusedTime | contracts/subscription-manager/src/lib.rs:118-130 | on every run the credit is at most the unused time at the price last paid; while any time is left it is exactly that if and only if there was no renewal since the current start; with all time unused it is one payment |
| SubscriptionManager.StackedRenewalIsCreditedOnce | contracts/subscription-manager/src/lib.rs:371-401 | two stacked annual payments, all of their time unused: two payments charged, a credit of one |
| SubscriptionManager.TierStep | contracts/subscription-manager/src/lib.rs:312-324 | the rank falls only by a new subscription, and every tier change raises it |
| SubscriptionManager.UpgradesAtMostTiersClimbed | contracts/subscription-manager/src/lib.rs:312-324 | between two subscriptions, tier changes number at most the ranks climbed, three at most |
| SubscriptionManager.SubscribeOrUpgrade | contracts/subscription-manager/src/lib.rs:246-251 | with enough balance, subscribing is open exactly while there is no active subscription, upgrading exactly while there is one of lower rank |
| SubscriptionManager.CallsSucceedIff | contracts/subscription-manager/src/lib.rs:246-497 | exactly when each call succeeds, a renewal of a lapsed subscription included |
| SubscriptionManager.PlanAfter | contracts/subscription-manager/src/lib.rs:271-440 | the plan each call leaves its user with; a renewal adds its period to what was left, or to now after a lapse |
| SubscriptionManager.UsageIsRecorded | contracts/subscription-manager/src/lib.rs:473-497 | on every run until the next subscription, upgrades and renewals included, usage is exactly what was recorded |
| RevenueSettlement.Settlement.RecordRevenue | contracts/revenue-settlement/src/lib.rs:99-177 | recording takes the contract to exactly the specified next state |
| RevenueSettlement.Settlement.DistributePlatformRevenue | contracts/revenue-settlement/src/lib.rs:179-232 | same for a distribution; nothing is written when one of its transfers is refused |
| RevenueSettlement.Settlement.ClaimPublisherBalance | contracts/revenue-settlement/src/lib.rs:234-266 | same for a claim |
| RevenueSettlement.SplitIsExact | contracts/revenue-settlement/src/lib.rs:117-133 | the dust is always 0 and, for amount >= 0, 0 <= 10000*publisher - 9000*amount < 30000 |
| RevenueSettlement.PartsAreFloors | contracts/revenue-settlement/src/lib.rs:117-121 | platform and burn get 2.5 percent each and the treasury 5, rounded down |
| RevenueSettlement.SharesGetTheirParts | contracts/revenue-settlement/src/lib.rs:122-146 | over every run each of the three shares is its own parts of the recorded revenues less what distributions took of that share |
| RevenueSettlement.CallsSucceedIff | contracts/revenue-settlement/src/lib.rs:99-266 | exactly when each call succeeds |
| RevenueSettlement.ClaimPaysPublisher | contracts/revenue-settlement/src/lib.rs:240-255 | a claim moves all that is due to its publisher, from the contract and no other account |
| RevenueSettlement.DistributionPaysShares | contracts/revenue-settlement/src/lib.rs:197-225 | a distribution moves each positive share to its own address and burns the burn share |
| RevenueSettlement.BooksBalance | contracts/revenue-settlement/src/lib.rs:129-141 | on every run owed + tokens paid out or burned = revenue recorded, and publisher share = balances + tokens received by claims |
| RevenueSettlement.PublisherGetsItsParts | contracts/revenue-settlement/src/lib.rs:129-141 | on every run each publisher's balance + tokens its claims brought = its own recorded parts |
| RevenueSettlement.CustodyLaw | contracts/revenue-settlement/src/lib.rs:197-225 | on every run, negative amounts included, tokens held - owed changes by exactly funding - revenue + payouts to the contract's own address |
| RevenueSettlement.FundedPayoutsSucceed | contracts/revenue-settlement/src/lib.rs:197-255 | if funding covers the recorded revenue every claim and distribution is payable, in any order |
| RevenueSettlement.UnclaimedBalanceNeverFalls | contracts/revenue-settlement/src/lib.rs:240-255 | through any run of non-negative revenues without its claims a publisher's balance never falls |
| GovernanceDao.Dao.CreateProposal | contracts/governance-dao/src/lib.rs:137-225 | creating takes the DAO to exactly the specified next state |
| GovernanceDao.Dao.CastVote | contracts/governance-dao/src/lib.rs:228-311 | same for a vote |
| GovernanceDao.Dao.FinalizeProposal | contracts/governance-dao/src/lib.rs:314-373 | same for finalising |
| GovernanceDao.Dao.ExecuteProposal | contracts/governance-dao/src/lib.rs:376-406 | same for executing |
| GovernanceDao.Dao.CancelProposal | contracts/governance-dao/src/lib.rs:409-434 | same for cancelling |
| GovernanceDao.RunKeepsInv | contracts/governance-dao/src/lib.rs:235-295 | on every run the tallies are the sums of recorded powers per choice, one vote per voter; status Expired is never reached |
| GovernanceDao.ProposalsKeepTheirTerms | contracts/governance-dao/src/lib.rs:137-225 | every proposal on record after a run was made in it by its proposer, with the DAO's quorum and threshold, open for the voting period from that ledger on, and no call changed that |
| GovernanceDao.CallsSucceedIff | contracts/governance-dao/src/lib.rs:137-434 | exactly when each call succeeds |
| GovernanceDao.VoteIsRecorded | contracts/governance-dao/src/lib.rs:271-295 | a vote that succeeds is on record as cast beside all earlier ones |
| GovernanceDao.ClosingLeaves | contracts/governance-dao/src/lib.rs:376-434 | executing and cancelling leave the proposal so |
| GovernanceDao.VotesAreFinal | contracts/governance-dao/src/lib.rs:235-241 | a recorded vote is never changed or withdrawn |
| GovernanceDao.ClosedIsFrozen | contracts/governance-dao/src/lib.rs:262-268 | once a proposal leaves Active it never returns, and its tallies and votes are frozen |
| GovernanceDao.StatusesFollow | contracts/governance-dao/src/lib.rs:315-434 | on every run only these statuses follow one another: Active before all but Expired, Passed before Executed and Cancelled, Rejected and Executed before Cancelled, Cancelled before none |
| GovernanceDao.ExecutedThenCancelled | contracts/governance-dao/src/lib.rs:409-425 | from a fresh DAO a proposal is passed, executed and then cancelled by its proposer |
| GovernanceDao.OutcomeIsExact | contracts/governance-dao/src/lib.rs:343-359 | the integer test is exactly 10000*(for+against) >= supply*quorum and 100*for >= threshold*(for+against) |
| GovernanceDao.FinalizeDecidesByRecordedVotes | contracts/governance-dao/src/lib.rs:314-359 | from a fresh DAO on every run, finalising succeeds exactly when active and over, and passes exactly when the recorded powers meet the two inequalities |
| GovernanceDao.ExecutedProposalsHadWon | contracts/governance-dao/src/lib.rs:376-394 | from a fresh DAO on every run, a passed or executed proposal was finalised in the run, and its votes on record met the threshold, and the quorum at the supply of that moment |
| GovernanceDao.RecordedVotesWereEntitled | contracts/governance-dao/src/lib.rs:235-293 | every vote on record after a run was cast in it by its voter, in time, on a proposal then active, with at most the tokens the voter then held |
| GovernanceDao.PowerWithinBalances | contracts/governance-dao/src/lib.rs:235-295 | on every run whose token moves leave each voter on a proposal at least its recorded power, as when none move, the proposal's recorded power is at most the sum of all balances |
| GovernanceDao.MovedTokensVoteTwice | contracts/governance-dao/src/lib.rs:243-258 | with a transfer between two votes the same tokens vote twice, and the power exceeds the supply |
| GovernanceDao.MoreForNeverRejects | contracts/governance-dao/src/lib.rs:343-359 | more For power never turns Passed into Rejected |
| GovernanceDao.OutcomeFollowsVotes | contracts/governance-dao/src/lib.rs:343-359 | the outcome depends only on the recorded votes of the proposal |
| GovernanceDao.VotesCommute | contracts/governance-dao/src/lib.rs:228-295 | votes by different voters commute, whether they succeed or panic |
| GovernanceDao.OrderDoesNotMatter | contracts/governance-dao/src/lib.rs:228-295 | any two orders of the same votes lead to the same state |
| MultisigTreasury.Treasury.ProposeTransaction | contracts/multisig-treasury/src/lib.rs:82-150 | proposing takes the treasury to exactly the specified next state |
| MultisigTreasury.Treasury.ApproveTransaction | contracts/multisig-treasury/src/lib.rs:152-213 | same for an approval; the write of Expired is undone by its panic |
| MultisigTreasury.Treasury.ExecuteTransaction | contracts/multisig-treasury/src/lib.rs:215-253 | same for a payment |
| MultisigTreasury.Treasury.RejectTransaction | contracts/multisig-treasury/src/lib.rs:255-297 | same for a rejection, the unsigned underflow included |
| MultisigTreasury.Treasury.AddOne | contracts/multisig-treasury/src/lib.rs:313-340 | same for adding a signer |
| MultisigTreasury.Treasury.RemoveOne | contracts/multisig-treasury/src/lib.rs:342-389 | same for removing a signer; the loop rebuilds the list |
| MultisigTreasury.InitializeEstablishesInv | contracts/multisig-treasury/src/lib.rs:59-80 | initialisation accepts exactly 1 <= required <= length, and distinct signers establish the invariant |
| MultisigTreasury.DropRemovesEveryCopy | contracts/multisig-treasury/src/lib.rs:372-378 | the rebuilt list loses every copy of the signer and nothing else |
| MultisigTreasury.RemovalKeepsThreshold | contracts/multisig-treasury/src/lib.rs:367-382 | a permitted removal leaves enough signers exactly when the list held few enough copies: always so for distinct signers |
| MultisigTreasury.RepeatedSignerBreaksThreshold | contracts/multisig-treasury/src/lib.rs:59-80 | a list that repeats a signer is accepted, and one removal leaves fewer signers than required |
| MultisigTreasury.RunKeepsInv | contracts/multisig-treasury/src/lib.rs:158-204 | from distinct signers, on every run: no duplicates, 1 <= required <= length, approvals = distinct approvers, approved or executed = exactly as many as needed, never Expired |
| MultisigTreasury.RunAsksForRequired | contracts/multisig-treasury/src/lib.rs:120-140 | on every run the requirement stays as it was set, and every transaction asks for exactly that many approvals |
| MultisigTreasury.ApprovedMeansEnoughApprovers | contracts/multisig-treasury/src/lib.rs:68-78 | from any accepted list of distinct signers, on every run, approved or executed means exactly as many distinct approvers as the initialisation required |
| MultisigTreasury.TransactionsKeepTheirTerms | contracts/multisig-treasury/src/lib.rs:82-150 | every transaction on record after a run was proposed in it by a signer, with that call's recipient, token, amount and expiry, and no call changed them since |
| MultisigTreasury.CallsSucceedIff | contracts/multisig-treasury/src/lib.rs:82-383 | exactly when each call succeeds, under the invariant |
| MultisigTreasury.SignersAfterChange | contracts/multisig-treasury/src/lib.rs:328-382 | an added signer is appended; a removal takes exactly that signer off the list |
| MultisigTreasury.ApprovalAndPaymentLeave | contracts/multisig-treasury/src/lib.rs:186-240 | an approval adds its signer to the approvers and approves exactly with the last one needed; a payment marks its transaction executed |
| MultisigTreasury.SignersStayWithoutAdmin | contracts/multisig-treasury/src/lib.rs:313-382 | through any run without calls of the administrator the signer list stays as it is |
| MultisigTreasury.StrangersMoveNoTransaction | contracts/multisig-treasury/src/lib.rs:157-276 | no run of calls by others than signers and administrator approves, rejects or pays a transaction |
| MultisigTreasury.ApprovalsComeFromSigners | contracts/multisig-treasury/src/lib.rs:157-204 | every approval on record after a run was given in it once, by a signer of that moment, on a transaction then pending and in time |
| MultisigTreasury.ApprovalsAreFinal | contracts/multisig-treasury/src/lib.rs:157-204 | on every run no approval is withdrawn |
| MultisigTreasury.OneSignerCanReject | contracts/multisig-treasury/src/lib.rs:259-290 | rejections are counted by call: one signer alone has a pending transaction rejected with exactly the call that lifts the count above signers - required, unless removals left no more signers than rejections counted |
| MultisigTreasury.OneOfThreeRejects | contracts/multisig-treasury/src/lib.rs:259-290 | with three signers and two required, one signer rejects a new proposal by calling twice |
| MultisigTreasury.PaidAtMostOnce | contracts/multisig-treasury/src/lib.rs:232-240 | each transaction pays at most once, and has paid exactly when marked executed |
| MultisigTreasury.PaymentIsApproved | contracts/multisig-treasury/src/lib.rs:232-237 | a payment has exactly the needed number of distinct approvals and moves exactly its amount, from the treasury to its recipient, in every token and account |
| MultisigTreasury.PaidOnRequiredApprovals | contracts/multisig-treasury/src/lib.rs:215-240 | from initialisation on, after any run, a payment has exactly the required number of distinct approvals |
| MultisigTreasury.ApprovedStaysPayable | contracts/multisig-treasury/src/lib.rs:215-240 | through every run without an execution of it an approved transaction stays as it is, and any signer's execution succeeds exactly when the treasury holds the amount, however long expired |
| PerformanceOracle.Oracle.SubmitAttestation | contracts/performance-oracle/src/lib.rs:93-176 | a submission takes the oracle to exactly the specified next state; a failed consensus undoes it |
| PerformanceOracle.Oracle.BuildConsensus | contracts/performance-oracle/src/lib.rs:210-270 | the averaging loop computes the checked sums and their floors |
| PerformanceOracle.Oracle.AuthorizeAttester | contracts/performance-oracle/src/lib.rs:75-91 | only the administrator authorises an attester |
| PerformanceOracle.RecordedKeepsListing | contracts/performance-oracle/src/lib.rs:145-166 | the index 0..count lists exactly the attesters with an attestation, each once |
| PerformanceOracle.AccumulateIsListSum | contracts/performance-oracle/src/lib.rs:226-243 | the lookups of the loop never fail: it yields the sum of the list or overflows |
| PerformanceOracle.RunKeepsInv | contracts/performance-oracle/src/lib.rs:210-270 | on every run a consensus exists exactly from max(1, minimum) attestations on, with the floor means over all attestations |
| PerformanceOracle.ConsensusOnEveryRun | contracts/performance-oracle/src/lib.rs:210-261 | the same from a fresh oracle |
| PerformanceOracle.CallsSucceedIff | contracts/performance-oracle/src/lib.rs:75-170 | exactly when each call succeeds |
| PerformanceOracle.AttestersAreAsNamed | contracts/performance-oracle/src/lib.rs:75-91 | on every run the attesters are exactly those the administrator named, and the minimum stays as it was set |
| PerformanceOracle.AttestationsAreFinal | contracts/performance-oracle/src/lib.rs:119-125 | on every run a recorded attestation is never changed or withdrawn |
| PerformanceOracle.StrangersAttestNothing | contracts/performance-oracle/src/lib.rs:108-116 | through any run without calls of the administrator an unauthorised address attests nothing |
| PerformanceOracle.MeanWithinBounds | contracts/performance-oracle/src/lib.rs:245-249 | a floor mean lies between bounds on its terms |
| PerformanceOracle.AveragesWithinReports | contracts/performance-oracle/src/lib.rs:245-249 | each average on record lies between the least and the greatest figure reported |
| PerformanceOracle.OrderDoesNotMatter | contracts/performance-oracle/src/lib.rs:226-249 | the same attestations in any order give the same consensus |
| PerformanceOracle.SubmissionRefusedOnlyOnOverflow | contracts/performance-oracle/src/lib.rs:104-170 | an authorised first report is refused only when it completes a quorum whose sums exceed 64 bits |
| CampaignLifecycle.Manager.RegisterCampaign | contracts/campaign-lifecycle/src/lib.rs:132-169 | registration takes the contract to exactly the specified next state |
| CampaignLifecycle.Manager.MoveTo | contracts/campaign-lifecycle/src/lib.rs:171-277 | same for a transition and its log entry |
| CampaignLifecycle.Manager.PauseOnFraud | contracts/campaign-lifecycle/src/lib.rs:108-130 | same for a fraud pause |
| CampaignLifecycle.Manager.ExtendCampaign | contracts/campaign-lifecycle/src/lib.rs:279-329 | same for an extension |
| CampaignLifecycle.Manager.SetFraudContract | contracts/campaign-lifecycle/src/lib.rs:94-106 | only the administrator names the fraud contract |
| CampaignLifecycle.PathLength | contracts/campaign-lifecycle/src/lib.rs:359-380 | on a path of legal edges the stage and the pauses fix the length |
| CampaignLifecycle.RegisterKeepsLogIff | contracts/campaign-lifecycle/src/lib.rs:132-156 | a registration keeps the log a path exactly when nothing has been logged |
| CampaignLifecycle.LogIsAPath | contracts/campaign-lifecycle/src/lib.rs:203-266 | from a fresh contract on every run, the log is a connected path of legal edges from Draft to the stage, pauses counted, exactly when no registration found moves logged, as when registered at most once; then length <= 2*pauses + 3 and never Archived |
| CampaignLifecycle.LateRegistrationBreaksLog | contracts/campaign-lifecycle/src/lib.rs:132-156 | register, submit, register again: the log is no path any more |
| CampaignLifecycle.CallsSucceedIff | contracts/campaign-lifecycle/src/lib.rs:359-384 | exactly when each call succeeds: along each of the eleven edges and no other, and for every end within three times the original |
| CampaignLifecycle.MoveLeaves | contracts/campaign-lifecycle/src/lib.rs:203-272 | a move leaves the stage asked for, counts a pause, and is the next entry of the log |
| CampaignLifecycle.RegistrationAndExtensionLeave | contracts/campaign-lifecycle/src/lib.rs:132-329 | a registration starts a campaign afresh; an extension moves the end as far as 32 bits allow and is counted |
| CampaignLifecycle.FraudIsLastNamed | contracts/campaign-lifecycle/src/lib.rs:94-106 | on every run the fraud contract is the last one the administrator named |
| CampaignLifecycle.TerminalIsAbsorbing | contracts/campaign-lifecycle/src/lib.rs:359-380 | no call but a new registration touches a campaign in a terminal stage |
| CampaignLifecycle.RunKeepsEnds | contracts/campaign-lifecycle/src/lib.rs:304-320 | on every run original end <= current end <= min(3*original, u32 max), at most ten extensions |
| CampaignLifecycle.EndsOnEveryRun | contracts/campaign-lifecycle/src/lib.rs:304-320 | the same from a fresh contract |
| CampaignLifecycle.StrangersChangeNothing | contracts/campaign-lifecycle/src/lib.rs:181-203 | no run of calls by others than the advertiser, the administrator and the fraud contract touches a campaign, short of a new registration |
| CampaignLifecycle.AdvertiserIsLastRegistrant | contracts/campaign-lifecycle/src/lib.rs:132-156 | on every run a campaign's advertiser is whoever registered it last; without a new registration it never changes |
| CampaignLifecycle.RegistrationTakesOver | contracts/campaign-lifecycle/src/lib.rs:132-156 | a second registration, open to anyone, takes the campaign over, and the first advertiser can no longer move it |
| CampaignLifecycle.ExtensionIsExactOrSaturated | contracts/campaign-lifecycle/src/lib.rs:309-319 | an extension moves the end by what was asked or stays at the u32 maximum |
| CampaignAnalytics.Analytics.RecordSnapshot | contracts/campaign-analytics/src/lib.rs:84-141 | recording takes the contract to exactly the specified next state |
| CampaignAnalytics.RecordExtendsLog | contracts/campaign-analytics/src/lib.rs:118-135 | one recording extends the represented log by one entry |
| CampaignAnalytics.OtherCampaignsUntouched | contracts/campaign-analytics/src/lib.rs:118-135 | recording for one campaign leaves the others' logs as they were |
| CampaignAnalytics.RingBufferRefinesLog | contracts/campaign-analytics/src/lib.rs:118-135 | after any run the slots hold exactly the last min(n, 720) log entries, entry j in slot j mod 720; the stored count is min(n, 720) |
| CampaignAnalytics.SlotHoldsLatest | contracts/campaign-analytics/src/lib.rs:227-262 | a stored slot holds the latest log entry that falls on it |
| CampaignAnalytics.LogIsWhatTheOracleSent | contracts/campaign-analytics/src/lib.rs:97-135 | the log of a campaign is everything the oracle sent for it, in order, up to what a 32-bit counter can count |
| CampaignAnalytics.RecordingSucceedsIff | contracts/campaign-analytics/src/lib.rs:97-135 | a recording succeeds exactly for the oracle, until the counter is full |
| CampaignAnalytics.OnlyOracleRecords | contracts/campaign-analytics/src/lib.rs:97-105 | a run in which the oracle makes no call changes nothing |
| GovernanceToken.Token.Transfer | contracts/governance-token/src/lib.rs:133-180 | a transfer takes the token to exactly the specified next state |
| GovernanceToken.Token.TransferFrom | contracts/governance-token/src/lib.rs:183-242 | same for a transfer on allowance |
| GovernanceToken.Token.MintTo | contracts/governance-token/src/lib.rs:271-308 | same for minting |
| GovernanceToken.Token.BurnOwn | contracts/governance-token/src/lib.rs:311-345 | same for burning |
| GovernanceToken.Token.Approve | contracts/governance-token/src/lib.rs:245-257 | sets one allowance to any amount, whatever was there |
| GovernanceToken.Token.DelegateTo | contracts/governance-token/src/lib.rs:348-369 | delegating takes the token to exactly the specified next state |
| GovernanceToken.Token.RevokeDelegation | contracts/governance-token/src/lib.rs:372-380 | same for revoking; no panic without a delegation |
| GovernanceToken.RunConserves | contracts/governance-token/src/lib.rs:133-345 | on every run balances sum to the supply, self-transfers and negative amounts included |
| GovernanceToken.SelfTransferChangesNothing | contracts/governance-token/src/lib.rs:153-171 | a transfer to oneself leaves every balance as it was |
| GovernanceToken.BalanceLaw | contracts/governance-token/src/lib.rs:133-345 | over every run every balance changes by exactly what successful calls bring it and take from it |
| GovernanceToken.TransferMovesAmount | contracts/governance-token/src/lib.rs:133-171 | a transfer succeeds exactly for a positive amount within the balance, and moves it from sender to recipient, in every account |
| GovernanceToken.SpendingMovesAmount | contracts/governance-token/src/lib.rs:183-236 | so does one on allowance within both, and it lowers that allowance and no other by as much |
| GovernanceToken.MintBringsAmount | contracts/governance-token/src/lib.rs:271-307 | minting succeeds exactly for the administrator within the cap, and adds to one balance and the supply alike |
| GovernanceToken.BurnTakesAmount | contracts/governance-token/src/lib.rs:311-345 | burning succeeds exactly within the balance, and lowers it and the supply alike |
| GovernanceToken.AllowanceIsLastSet | contracts/governance-token/src/lib.rs:245-257 | on every run without spending of it an allowance is the last one its owner set |
| GovernanceToken.DelegateIsLastNamed | contracts/governance-token/src/lib.rs:348-380 | on every run an account's delegate is the last one it named, unless it revoked it since |
| GovernanceToken.SafeIffSignChecked | contracts/governance-token/src/lib.rs:183-345 | a call keeps balances >= 0 and the supply <= cap in every good state exactly when it passes the sign check the contract leaves out |
| GovernanceToken.NegativeAmountsOverdraw | contracts/governance-token/src/lib.rs:183-307 | from a fresh token, a mint or a transfer on allowance with a negative amount makes a balance negative |
| GovernanceToken.BalancesFallOnlyByConsent | contracts/governance-token/src/lib.rs:183-236 | in every good state a balance falls only by its owner's call or within an allowance it gave, exactly under a sign check |
| GovernanceToken.IdleHolderKeepsBalance | contracts/governance-token/src/lib.rs:183-236 | with non-negative amounts, an account that grants nothing and makes no call never loses tokens |
| GovernanceToken.SupplyLaw | contracts/governance-token/src/lib.rs:271-345 | over every run the supply changes by exactly what the administrator mints less what holders burn |
| GovernanceToken.SupplyNeverGrowsWithoutAdmin | contracts/governance-token/src/lib.rs:271-345 | so with non-negative amounts and without the administrator it never grows |
| GovernanceToken.NegativeBurnBreaksCap | contracts/governance-token/src/lib.rs:311-345 | burning a negative amount is accepted and can exceed the cap |
| GovernanceToken.RunKeepsSound | contracts/governance-token/src/lib.rs:281-307 | with non-negative amounts, every run keeps balances >= 0 and the supply within the cap |
| GovernanceToken.PowerWithinSupply | contracts/governance-token/src/lib.rs:383-401 | with non-negative amounts every account's voting power is within the total power, and that within the supply |
| GovernanceToken.PowerIsSupplyLessDelegated | contracts/governance-token/src/lib.rs:383-401 | on every run the voting power of all accounts is exactly the supply less what delegators hold |
| GovernanceToken.DelegatingSilences | contracts/governance-token/src/lib.rs:348-401 | delegating takes the delegator's power and gives nobody any; revoking gives it back |
| GovernanceToken.SpendingUsesAllowance | contracts/governance-token/src/lib.rs:187-215 | until a new allowance is set, spending uses it up and never exceeds it |
| RecurringPayment.Scheduler.CreateRecurring | contracts/recurring-payment/src/lib.rs:66-122 | creating takes the scheduler to exactly the specified next state |
| RecurringPayment.Scheduler.ExecutePayment | contracts/recurring-payment/src/lib.rs:124-195 | same for a payment; the write of Cancelled is undone by its panic |
| RecurringPayment.Scheduler.PausePayment | contracts/recurring-payment/src/lib.rs:197-221 | same for pausing |
| RecurringPayment.Scheduler.ResumePayment | contracts/recurring-payment/src/lib.rs:223-248 | same for resuming |
| RecurringPayment.Scheduler.CancelPayment | contracts/recurring-payment/src/lib.rs:250-274 | same for cancelling |
| RecurringPayment.RunKeepsInv | contracts/recurring-payment/src/lib.rs:94-182 | on every run next >= last + interval, total*interval <= last - created, total <= limit; status Failed is never reached |
| RecurringPayment.PaymentsWithinRate | contracts/recurring-payment/src/lib.rs:153-182 | payments by time t number at most floor((t - created)/interval) |
| RecurringPayment.WindowLaw | contracts/recurring-payment/src/lib.rs:175-182 | over any stretch of a run new payments take at least an interval each, and tokens moved = new payments*amount |
| RecurringPayment.MovedIsTotalTimesAmount | contracts/recurring-payment/src/lib.rs:94-182 | from its creation on, on every run, the tokens a payment moved are exactly its count times its amount, on the terms it was created with |
| RecurringPayment.PaymentsKeepTheirTerms | contracts/recurring-payment/src/lib.rs:66-122 | every payment on record after a run was created in it on its terms, which no call changed since |
| RecurringPayment.CallsSucceedIff | contracts/recurring-payment/src/lib.rs:66-274 | exactly when each call succeeds |
| RecurringPayment.ScheduleAfter | contracts/recurring-payment/src/lib.rs:176-242 | a payment made is counted and the next one due an interval later; resuming starts a new interval |
| RecurringPayment.NextPaymentAfterInterval | contracts/recurring-payment/src/lib.rs:153-182 | right after a payment the next one succeeds exactly from an interval later on, within limit and funds |
| RecurringPayment.PaymentReachesRecipient | contracts/recurring-payment/src/lib.rs:175-182 | a payment moves exactly its amount, from payer to recipient, in every token and account |
| RecurringPayment.InactivePaysNothing | contracts/recurring-payment/src/lib.rs:148-150 | a paused or cancelled payment is not made again through any run in which its payer does not resume it |
| RecurringPayment.NothingWithoutConsent | contracts/recurring-payment/src/lib.rs:137-182 | through any run without the payer's consent no payment is made, no token moved and nothing paused, resumed or cancelled |

## Left out

- The backend and the frontend, and the contracts not listed above.
- Host authentication: a call is taken to be authorised by the address it names; where a second signature is
  asked for (recurring-payment), it is an argument of the call.
- Storage lifetimes, eviction of temporary entries, events and encodings: storage is a permanent map.
- The two-step admin handover: the administrator is fixed during a run.
- The cross-contract checks of `record_view`: their combined answer is an argument of the call. The dispute
  contract's call is an ordinary call of `settle_dispute` with any arguments.
- Fields that no code reads back: descriptions, hashes, reserve factor, borrow rate, interest, most timestamps,
  advertiser statistics, publisher earnings, settlement records, publisher scores, plan features, registration counters.
- `is_active`, `get_plan` and the other plain getters, the retention and funnel records of campaign-analytics.
- SubscriptionManager.CreditIsBackedByCash: the cash bound leaves out a subscriber that is itself the treasury, because paying oneself moves no tokens.
- RewardsDistributor.ScheduleIndependence: needs non-negative budgets and awards, because a negative award lowers what has been earned after it may have been claimed.
- RevenueSettlement.FundedPayoutsSucceed: needs non-negative revenues, because a negative one would make a balance a debt.
- RecurringPayment.WindowLaw: counts no tokens for a payer that pays itself.
