# InvoFi protocol model

A Dafny model of InvoFi, an invoice-financing protocol of six Soroban contracts (registry, financing,
repayment, insurance, reputation, event indexer) over a shared crate, with proofs about every run of it.

Each contract is a class whose methods follow the entry points step by step, loops included, and are
proved equal to an atomic step on a value (`*Steps` modules): a call either commits the specified state
or reverts with the specified error and leaves everything, in every contract it called, as it was. What
the protocol promises is then proved about those steps and, by induction, about all runs of them (`*Runs`
modules). Callers, ledger time and the outcome of signature checks are parameters; ledger time never runs
backwards; amounts are mathematical integers except where the code saturates.

| files | what they hold |
|---|---|
| `Base`, `Ledger` | identifiers, errors, truncating division, totals over balance maps, host key order |
| `ProRata` | the allocation loop that divides a payout over stakers |
| `FlatPool`, `TierPools`, `InsuranceSteps`, `Insurance`, `InsuranceRuns`, `PoolCalls` | the insurance contract, and when each of its calls goes through |
| `YieldRuns`, `TierYieldRuns`, `YieldLosses` | its yield: the time integral, and what payouts do to it |
| `PoolSolvency`, `ReachableCases` | which runs keep reservations covered and stakes non-negative, and runs from deployment that do not |
| `Attestations`, `OracleSteps`, `Oracle`, `OracleRuns`, `OracleVerdicts` | the verification oracle of the registry |
| `Status`, `SortedIds`, `Paging`, `RegistrySteps`, `Registry`, `RegistryRuns`, `RegistryAuthority`, `IndexMigration` | invoices, transition logs, invoice tokens, the originator index and its backfill, and who may do what to them |
| `Negotiation`, `FinancingSteps`, `Token`, `Financing`, `NegotiationRuns`, `FinancingAuthority`, `LenderStatistics` | offers and their negotiation, and who may do what to them |
| `Loans`, `RepaymentSteps`, `LoanLaws`, `Repayment`, `LoanAmounts`, `LoanCalls`, `LongLoans` | repayment, interest and penalties to the unit, default, and loans with more payments than are counted |
| `ProtocolRuns`, `SecondFunding`, `OutcomeReports`, `PoolCustody`, `InvoiceFit`, `Authorship` | all contracts together: the life of an invoice, the outcomes on record, the pool's tokens, offers against invoices, who is bound by a settlement |
| `EventLog`, `EventIndexer` | the event indexer and its paged queries |
| `Decay`, `Reputation`, `SemVer`, `UpgradeSteps`, `Upgrade`, `UpgradeRuns`, `Signers` | reputation decay, the version parser, upgrades, M-of-N approval |

## Where the code and its comments differ

The model follows the code. Each promise below fails on some input. For each there is a lemma with such an input
and another with the exact condition under which the promise holds.

- No stake goes below zero: the last staker of a payout absorbs the rounding of all others
  (`ReachableCases.LastStakerGoesNegative`, from deployment). It stays at or above zero exactly when
  `ProRata.LastStaysNonNegative` says so, and on a run all stakes do exactly when each payout and claim is absorbed
  (`PoolSolvency.NeverInDebtIff`).
- No withdrawal exceeds the pool: next to a negative stake the others can take out more than the pool's total
  (`ReachableCases.PoolIsOverdrawn`, from deployment). A withdrawal fits exactly when it is at most the total, which
  without negative stakes it always is (`PoolSolvency.UnstakeWithinPool`).
- A rate change or a top-up leaves accrued yield alone: not that of a staker below zero
  (`ReachableCases.DebtsAreForgotten`, from deployment, for both). It does exactly while principal has not been driven
  negative by a whole unit of yield (`FlatPool.RateChangeIsProspective`, `FlatPool.TopUpIsProspective`).
- A reservation is covered until it is claimed: `pay_out` and `unstake` ignore reservations
  (`ReachableCases.ReservationIsOutrun`, from deployment, for both). The pool covers them throughout a run exactly
  when each withdrawal and payout fits into what is not reserved (`PoolSolvency.StaysCoveredIff`).
- Yield once accrued is kept: `pay_out` and `claim_payout` do not bank yield before reducing principal
  (`ReachableCases.PartialPayoutTakesYield`, from deployment). A staker keeps what it has accrued exactly when its loss
  does not cross a whole unit of yield (`YieldLosses.PayOutKeepsYieldIff`, `YieldLosses.ClaimKeepsYieldIff`).
- An upgrade lists historical invoices: the backfill runs in a transaction of its own, and one registration committed
  before it keeps it from running (`IndexMigration.RegistrationPreemptsBackfill`). Every invoice is listed exactly when
  nothing was acquired before the backfill, or every invoice's originator acquired it since
  (`IndexMigration.BackfillCompletesIff`).
- Outcomes decay with the time since they were recorded: each recomputation of a record forgets the started half-life
  (`Reputation.FrequentOutcomesNeverDecay`). A record keeps its full weight exactly when no gap between outcomes reaches
  a half-life (`Reputation.NeverDecaysIff`), and a run of recomputations halves as often as there are whole half-lives in
  its gaps (`Decay.RunOfRecomputations`).
- An offer fits its invoice: `amend_offer` does not compare the amount again, and the originator may lower the invoice
  below an offer on it (`InvoiceFit.AmendmentMayExceedInvoice`, `InvoiceFit.LoweredInvoiceIsOverfunded`). Every offer
  fits its invoice throughout a run exactly when neither of these commits (`InvoiceFit.RunFitsIff`).
- Nobody is bound to terms it did not propose: after a token transfer the new originator is bound to the old one's
  counter-offer, and is the one paid (`Authorship.TransferBindsNewOriginator`; from deployment,
  `Authorship.SomeoneElseIsBound`). The settled proposal is the current originator's own exactly when the token has not
  changed hands since, or has come back (`Authorship.BoundByOwnProposalIff`).
- Every payment is counted: past a thousand payments, one short of closing the loan repays nothing
  (`LongLoans.PaidForNothing`, reached in `LongLoans.LimitIsReached`). What is taken to remain is right exactly when
  nothing was repaid past the limit or the principal is covered either way (`LongLoans.RemainingIsExactIff`).
- Invoice and loan move together: `update_invoice_status` takes any edge of the state machine,
  `set_invoice_repaid_status` any caller, `resolve_dispute` any edge from any status. Marked repaid directly, the loan
  can be neither repaid nor reclaimed (`ProtocolRuns.DirectRepaidStrandsTheLoan`); declared defaulted by its originator,
  an overdue invoice blocks the reclaim, the insurance and the recorded default
  (`ProtocolRuns.DirectDefaultStrandsTheLender`). A run stays in lockstep exactly when its direct changes only cancel,
  mark overdue, or keep an invoice Financed (`ProtocolRuns.ChangeKeepsStepIff`, `ProtocolRuns.RunKeepsStep`).
- Each terminal invoice has exactly one reputation outcome: that direct default leaves it without one. It has one,
  throughout a run, exactly when no invoice is ended by a direct change or without a reputation contract
  (`OutcomeReports.RunReportsIff`); more than one it never has (`ProtocolRuns.OneOutcomeOnePayout`).
- An invoice is financed once: a dispute resolved to Pending lets a second offer be funded while the first still runs
  (`ProtocolRuns.DisputeAllowsSecondFunding`). No invoice is financed twice in a run exactly when no offer is settled in
  it on an invoice funded before (`SecondFunding.RunFundsOnceIff`), which takes a way back to Pending
  (`SecondFunding.OnlyReopenedAgain`, `ProtocolRuns.FinancedOnceUnlessReopened`).

Other behaviour that the comments do not lead one to expect:

- Yield already banked cannot be withdrawn without a stake, and becomes payable again with the next one
  (`YieldLosses.StakeRevivesBankedYield`).
- Statements of a removed verifier stop counting at once (`Attestations.RemovalSilences`).
- `offers_pending` is never decremented: it counts the offers ever created (`LenderStatistics.RunKeepsStats`).
- Interest is recomputed from the funding date on every payment, so a payment that only meets the interest
  changes nothing (`LoanLaws.InterestIsChargedAnew`); a loan closes once principal and interest are covered, penalty
  or not (`LoanLaws.ClosesIff`).
- A token that returns to an earlier owner is listed once per acquisition in that owner's index
  (`RegistryRuns.RunKeeps`).

## Model

| member | source | states |
|---|---|---|
| ProRata.Allocation | insurance/src/lib.rs:995-1019 | for non-negative stakes making up the pool and any payout up to it: the clamp never binds, everybody but the last loses exactly the rounded-down share, the last at least its share and at most one unit per other staker more, and the reductions add up to the payout |
| ProRata.LastStaysNonNegative | insurance/src/lib.rs:1003-1017 | the last staker ends at or above zero if and only if its balance, scaled by what stays in the pool, absorbs the rounding dust of the others |
| ProRata.StaysNonNegative | insurance/src/lib.rs:1003-1017 | nobody but possibly the last goes below zero, and the last does not when its balance times the rest of the pool is at least one pool per other staker |
| ProRata.LastCanGoNegative | insurance/src/lib.rs:1003-1017 | three stakes of one and a payout of two leave the last at minus one |
| ProRata.FullPayoutEmptiesEveryone | insurance/src/lib.rs:1003-1017 | a payout of the whole pool leaves every staker at exactly zero |
| ProRata.PayoutConserves | insurance/src/lib.rs:995-1021 | the stakes lose exactly the payout in total, even when some are already negative |
| ProRata.AfterPayoutAt | insurance/src/lib.rs:1003-1017 | each listed staker is left with its balance less its own cut, whatever the order; nobody else moves |
| ProRata.AllocateLoss | insurance/src/lib.rs:997-1020 | the loop with its running total of reductions computes the specified allocation, and its reductions sum to the payout |
| FlatPool.RateChangeIsProspective | insurance/src/lib.rs:587-606 | a rate change leaves a staker's accrued yield where it was at that instant, if and only if its principal has not accrued a whole negative unit |
| FlatPool.TopUpIsProspective | insurance/src/lib.rs:837-860 | a top-up leaves the yield accrued so far where it was, under the same exact condition |
| FlatPool.BankAllStep | insurance/src/lib.rs:587-606 | banking one more staker extends the set of checkpointed stakers by exactly that one |
| FlatPool.PayoutShares | insurance/src/lib.rs:995-1019 | a payout from a pool without negative stakes, staker by staker in the host's key order |
| FlatPool.PayoutStaysHealthy | insurance/src/lib.rs:995-1019 | a payout leaves all stakes non-negative if and only if the last key's balance absorbs the dust |
| FlatPool.FullPayoutClearsThePool | insurance/src/lib.rs:995-1021 | paying out everything leaves an empty stakes map and a zero total |
| FlatPool.ClaimKeepsBooks | insurance/src/lib.rs:1284-1359 | a claim keeps the stakes equal to the pool total and the outstanding sum equal to what offers may still claim, none paid more than reserved |
| FlatPool.OthersOutstanding | insurance/src/lib.rs:1284-1316 | what all other offers may still claim together is never negative |
| FlatPool.ClaimSparesOtherOffers | insurance/src/lib.rs:1300-1359 | after a paying claim the pool still covers all other offers, and none of their entries moved |
| FlatPool.CoveredClaimPaysInFull | insurance/src/lib.rs:1300-1320 | while the pool covers all reservations a claim pays the smaller of the request and what its offer has left |
| TierPools.PayoutStaysInTier | insurance/src/lib.rs:1071-1113 | the stakes and records of other tiers are untouched by a tier's loss |
| TierPools.ClaimKeepsBooks | insurance/src/lib.rs:1158-1234 | a tier claim keeps every tier's balance equal to its stakes and its reserved amount equal to reserved less paid over its offers |
| TierPools.FundedTierHasStakers | insurance/src/lib.rs:1071-1085 | a tier with a positive balance has somebody to share the loss |
| Insurance.Contract.BankAccruedYield | insurance/src/lib.rs:423-446 | banks what accrued since the checkpoint and restarts the clock |
| Insurance.Contract.SetYieldRate | insurance/src/lib.rs:587-606 | checkpoints every staker before the new rate takes effect |
| Insurance.Contract.Stake | insurance/src/lib.rs:810-857 | commits the specified stake or reverts |
| Insurance.Contract.Unstake | insurance/src/lib.rs:872-932 | commits the specified withdrawal of principal and yield or reverts |
| Insurance.Contract.PayOut | insurance/src/lib.rs:957-1033 | commits the specified payout or reverts |
| Insurance.Contract.ReservePayout | insurance/src/lib.rs:1247-1273 | commits the specified reservation or reverts |
| Insurance.Contract.ClaimPayout | insurance/src/lib.rs:1284-1359 | commits the specified claim or reverts |
| Insurance.Contract.StakeTier | insurance/src/lib.rs:662-699 | commits the specified tier stake or reverts |
| Insurance.Contract.UnstakeTier | insurance/src/lib.rs:702-745 | commits the specified tier withdrawal or reverts |
| Insurance.Contract.PayOutTier | insurance/src/lib.rs:1038-1115 | commits the specified tier payout or reverts |
| Insurance.Contract.ReservePayoutTier | insurance/src/lib.rs:1120-1154 | commits the specified tier reservation or reverts |
| Insurance.Contract.ClaimPayoutTier | insurance/src/lib.rs:1158-1234 | commits the specified tier claim or reverts |
| InsuranceRuns.RunKeeps | insurance/src/lib.rs:662-1359 | on every run of all entry points: stakes make up the pool total and each tier's balance, tokens held are principal plus donations less yield paid, outstanding reservations balance, and coverage limits hold |
| InsuranceRuns.PayoutWithinPool | insurance/src/lib.rs:983-1033 | a payout is the smaller of request and pool, and pool, custody and beneficiary move by exactly that |
| InsuranceRuns.NoPayingClaimOnEmptyPool | insurance/src/lib.rs:1300-1345 | in every reachable state a claim that pays meets a positive pool: the share computation never divides by zero |
| InsuranceRuns.TierGuardsUnreachable | insurance/src/lib.rs:1071-1113 | the guards comparing reductions with the payout never fire in a reachable state |
| InsuranceRuns.ClaimsWithinCoverage | insurance/src/lib.rs:1120-1234 | lifetime claims on an offer and tier stay within the tier's coverage share of the largest request |
| InsuranceRuns.PoolsAreIsolated | insurance/src/lib.rs:662-745 | a step on one pool leaves every other pool's record, stakes and reservations alone |
| InsuranceRuns.ReservationsStayCovered | insurance/src/lib.rs:1247-1359 | on runs of stakes, reservations and claims the pool always covers all reservations and every claim pays in full |
| InsuranceRuns.CoveredExactlyWhen | insurance/src/lib.rs:872-1033 | any step leaves a covered pool covered exactly when what it withdraws or pays out fits into what is not reserved |
| PoolSolvency.StaysCoveredIff | insurance/src/lib.rs:872-1033 | the pool covers its reservations throughout a run if and only if each committed withdrawal and payout fits into what is not reserved at the time |
| PoolSolvency.NoDebtsStepIff | insurance/src/lib.rs:995-1021 | from a pool without negative stakes any step leaves none if and only if the last staker absorbs the rounding of the payout or claim, if the step is one |
| PoolSolvency.NeverInDebtIff | insurance/src/lib.rs:995-1021 | no stake is negative throughout a run if and only if every committed payout and claim is absorbed |
| PoolSolvency.UnstakeWithinPool | insurance/src/lib.rs:872-932 | a withdrawal leaves the pool total non-negative if and only if it is at most the total, as it always is while no stake is negative |
| PoolSolvency.AbsorbedRunsNeverOverdraw | insurance/src/lib.rs:872-932 | after any run whose payouts and claims are all absorbed no withdrawal can exceed the pool |
| InsuranceRuns.PrincipalMoves | insurance/src/lib.rs:662-932 | stakes and withdrawals move the principal in the pools by exactly their amount, donations and rate changes not at all |
| PoolCalls.StakeCommitsIff | insurance/src/lib.rs:810-857 | a stake goes through if and only if it is positive, leaves at least a million staked and is covered; it moves from the staker to the pool and onto that stake alone |
| PoolCalls.StakeTierCommitsIff | insurance/src/lib.rs:662-699 | the same in a tier |
| PoolCalls.UnstakeSettles | insurance/src/lib.rs:872-932 | a withdrawal comes off the own stake alone and leaves no yield to withdraw |
| PoolCalls.PayOutCommitsIff | insurance/src/lib.rs:957-1033 | a payout goes through if and only if the invoice has defaulted, the request is positive and the tokens are there, and pays the beneficiary the request as far as the pool goes |
| PoolCalls.ReserveLocks | insurance/src/lib.rs:1247-1273 | a reservation locks the request as far as the pool is not locked yet, for its own offer |
| PoolCalls.ClaimCommitsIff | insurance/src/lib.rs:1284-1359 | a claim goes through if and only if something is locked for its offer and the tokens are there, and pays the lender the request as far as that and the pool less what is locked for others go |
| PoolCalls.PayOutTierCommitsIff | insurance/src/lib.rs:1038-1115 | a tier payout pays half, three quarters or all of the request, by tier, rounded down, as far as the tier goes |
| PoolCalls.ReserveTierLocks | insurance/src/lib.rs:1120-1154 | a tier reservation locks what that share has over what is locked already, as far as the tier is not locked yet |
| PoolCalls.ClaimTierCommitsIff | insurance/src/lib.rs:1158-1234 | a tier claim pays the request as far as what is locked for its offer and the tier go |
| PoolCalls.RefusalsTell | insurance/src/lib.rs:662-1359 | in every reachable state a refused call is told why, truthfully: not positive or too small a stake, more than is staked or locked, no default, or tokens that are not there |
| YieldLosses.PayOutKeepsYieldIff | insurance/src/lib.rs:997-1021 | each staker keeps the yield it has accrued across a payout, partial or full, if and only if its loss times period and rate does not cross a whole unit |
| YieldLosses.ClaimKeepsYieldIff | insurance/src/lib.rs:1322-1345 | the same for a claim on a reservation |
| YieldLosses.OrdinaryLoss | insurance/src/lib.rs:404-411 | for a staker not driven below zero that is exactly: the lost yield is at most what the accrued yield had beyond whole units |
| YieldLosses.WithdrawalGoesThroughIff | insurance/src/lib.rs:872-932 | a withdrawal goes through if and only if it is positive, within the stake, and covered together with the yield it pays |
| YieldLosses.FullPayoutStrandsYield | insurance/src/lib.rs:997-1021 | a payout of the whole pool leaves everybody with the yield banked so far and no stake, so that no withdrawal goes through from there |
| YieldLosses.StakeRevivesBankedYield | insurance/src/lib.rs:837-857 | yield banked by a staker with nothing left is not withdrawable until its next stake, and then to the last unit |
| ReachableCases.PartialPayoutTakesYield | insurance/src/lib.rs:957-1033 | from deployment: a payout of half the pool halves a year of accrued yield |
| ReachableCases.LastStakerGoesNegative | insurance/src/lib.rs:995-1021 | from deployment: three stakes withdrawn down to one unit each and a payout of two leave the last staker at minus one beside two stakes of one in a pool of one |
| ReachableCases.DebtsAreForgotten | insurance/src/lib.rs:587-606 | that run carried on for a year: a rate change, and likewise an accepted top-up, moves the accrued yield from minus one to zero |
| ReachableCases.PoolIsOverdrawn | insurance/src/lib.rs:872-932 | that run carried on with a donation of one: the two other stakers withdraw their unit each and the pool total is minus one |
| ReachableCases.ReservationIsOutrun | insurance/src/lib.rs:872-1033 | from deployment: a stake, a reservation of all of it, and its withdrawal or a default payout; the reservation stands, the pool is empty, and a claim on it pays nothing |
| YieldRuns.YieldTracksTheIntegral | insurance/src/lib.rs:404-446 | on every run without losses, yield received plus accrued never exceeds the exact time integral of principal times rate and falls short by less than one unit per checkpoint and one for the open period |
| TierYieldRuns.TierYieldTracksTheIntegral | insurance/src/lib.rs:220-243 | on every run without losses of its tier, what a tier staker received beyond its principal plus what it has accrued never exceeds the exact time integral of its principal at two, five or ten per cent a year, and falls short by less than one unit per checkpoint and one for the open period |
| TierYieldRuns.TopUpIsProspective | insurance/src/lib.rs:662-699 | a tier top-up leaves the accrued yield where it was, exactly while no whole negative unit has accrued |
| TierYieldRuns.TierWithdrawal | insurance/src/lib.rs:702-745 | a tier withdrawal goes through if and only if it is positive, within the stake, and covered together with the accrued yield; it brings both and leaves no yield |
| Attestations.TypeStatus | registry/src/lib.rs:348-404 | the counting loop computes the verdict by counts |
| Attestations.CountIsVoices | registry/src/lib.rs:348-404 | counting statements is counting distinct verifiers |
| Attestations.VerdictByVoices | registry/src/lib.rs:348-404 | set-level verdict, both directions for each status: a live rejection by a trusted verifier dominates, then distinct live approvals against the threshold, expired only when nothing live remains |
| Attestations.RemovalSilences | registry/src/lib.rs:360-375 | removing a verifier withdraws its voice at once and nobody else's |
| Attestations.Pigeonhole | registry/src/lib.rs:406-441 | statements of current verifiers alone, lacking one, cannot fill a list of three per verifier |
| Attestations.EvictionFindsDeparted | registry/src/lib.rs:442-476 | when eviction is called the first pass always finds a departed verifier's record |
| Attestations.EvictOneSlot | registry/src/lib.rs:442-476 | the two passes over the list free the specified slot or refuse |
| Attestations.DropIsSilent | registry/src/lib.rs:442-476 | dropping a statement that does not speak to a type moves no verdict on it at any time |
| Attestations.ExpireKeepsVerdicts | registry/src/lib.rs:1715-1752 | recording lapses changes no verdict at that time or any later time |
| Attestations.ExpireOnce | registry/src/lib.rs:1715-1752 | repeated at the same time it records nothing |
| Oracle.Contract.AddVerifier | registry/src/lib.rs:1371-1385 | commits the specified verifier set or reverts |
| Oracle.Contract.RemoveVerifier | registry/src/lib.rs:1394-1405 | removes exactly that verifier, order kept |
| Oracle.Contract.Attest | registry/src/lib.rs:1561-1647 | replaces the verifier's earlier statement, evicts when full, appends, or reverts |
| Oracle.Contract.ExpireVerifications | registry/src/lib.rs:1715-1752 | records the lapses and returns how many are new |
| Oracle.Contract.InvoiceStatus | registry/src/lib.rs:1678-1704 | the fold over the three types gives the verdict on the invoice |
| OracleRuns.RunKeeps | registry/src/lib.rs:1371-1647 | for any verifier cap, in every reachable state the verifier set is duplicate-free and capped and every list holds one statement per verifier and type and at most three per slot of the cap |
| OracleRuns.AdmitsTrusted | registry/src/lib.rs:442-476 | a trusted verifier is never refused for lack of room, and only a departed verifier's statement makes way |
| OracleRuns.DeployedCaps | common/src/lib.rs:71-90 | with the deployed caps of 20 and 60: lists stay within 60 and every trusted attestation on an open invoice commits |
| OracleRuns.ReachableVerdict | registry/src/lib.rs:348-404 | in every state reachable from deployment each verdict is the set-level one over the current verifiers |
| OracleRuns.AttestMovesOnlyItsType | registry/src/lib.rs:1561-1647 | an attestation with its replacement and eviction moves no verdict on another type, for any threshold and any later time |
| OracleRuns.AttestMovesOneVoice | registry/src/lib.rs:1561-1647 | on its own type it moves exactly the attesting verifier's voice |
| OracleRuns.EvictionRemovesOneVoice | registry/src/lib.rs:442-476 | under any verifier set an eviction removes one voice, that of the evicted statement |
| OracleVerdicts.AttestSpeaks | registry/src/lib.rs:1594-1605 | after an attestation its verifier is among those who approve exactly if it approved and among those who reject exactly if not, up to the end of the validity, and among the lapsed from then on |
| OracleVerdicts.AttestDecides | registry/src/lib.rs:348-404 | while it is valid a disapproval rejects its type, and an approval verifies it exactly when nobody else rejects and the others who approve reach the threshold with it |
| OracleVerdicts.InvoiceByVoices | registry/src/lib.rs:1678-1712 | the whole invoice by voices: rejected if anybody rejects any type, else verified if every type is approved by enough, else expired if some type has only lapsed statements, else pending |
| OracleVerdicts.AttestCommitsIff | registry/src/lib.rs:1561-1645 | an attestation commits if and only if its verifier is trusted, the invoice is open and the fee paid; it is taken down as made, on this invoice only |
| OracleVerdicts.TrustMoves | registry/src/lib.rs:1371-1405 | additions and removals move the set of trusted verifiers by exactly one, additions only while there is room |
| OracleVerdicts.SettingsMove | registry/src/lib.rs:1427-1485 | threshold and validity are set within their limits, and nothing else |
| OracleVerdicts.ExpiryMarks | registry/src/lib.rs:1715-1754 | recording lapses marks exactly the statements past their deadline and returns how many it marked |
| OracleVerdicts.RefusalsTell | registry/src/lib.rs:1561-1640 | a refused call is told why, truthfully |
| SortedIds.InsertSorted | registry/src/lib.rs:226-240 | the scan for the insertion point and the rebuilt list |
| SortedIds.InsertedCounts | registry/src/lib.rs:226-240 | insertion adds the id once and loses nothing |
| SortedIds.InsertedSorted | registry/src/lib.rs:226-240 | a sorted list stays sorted |
| SortedIds.SortedUnique | registry/src/lib.rs:226-270 | a sorted list is determined by how often it holds each id |
| Registry.Contract.Move | common/src/lib.rs:1353-1446 | checks the edge, logs it with first-in first-out eviction, stores the status, burns the token of a settled invoice |
| Registry.Contract.RegisterInvoice | registry/src/lib.rs:773-818 | commits the specified invoice with its token and index entry or reverts |
| Registry.Contract.UpdateInvoiceStatus | registry/src/lib.rs:830-858 | takes any legal edge for the originator or reverts |
| Registry.Contract.UpdateInvoiceAmount | registry/src/lib.rs:861-888 | changes the amount of a pending invoice or reverts |
| Registry.Contract.MarkInvoiceOverdue | registry/src/lib.rs:1082-1113 | only after the due date, only from Financed |
| Registry.Contract.ResolveDispute | registry/src/lib.rs:1150-1186 | any legal edge but back to Disputed |
| Registry.Contract.ExecuteTransfer | registry/src/lib.rs:116-154 | moves token, originator and index entry together or reverts |
| Registry.Contract.Transfer | registry/src/lib.rs:2204-2220 | by the owner or its delegate |
| Registry.Contract.TransferFrom | registry/src/lib.rs:2224-2246 | by the owner or the approved spender |
| Registry.Contract.BackfillOriginatorIndex | registry/src/lib.rs:255-270 | the one-time rebuild commits the specified index |
| Registry.Contract.OriginatorPage | registry/src/lib.rs:1216-1244 | the loop returns exactly the requested slice |
| RegistryRuns.ChangesMove | registry/src/lib.rs:830-1186 | every status change of every entry point is one checked and logged transition |
| RegistryRuns.RunKeeps | registry/src/lib.rs:85-154 | in every reachable state: a token is burned exactly when its invoice is settled and otherwise belongs to the originator; each log is the last 20 of a linked chain of allowed edges ending in the current status; each address's list is sorted and counts its acquisitions |
| RegistryRuns.TokensFollowInvoices | registry/src/lib.rs:85-154 | on every run from deployment a token is burned if and only if its invoice is Cancelled, Repaid or Defaulted, a live token belongs to the invoice's originator, and the invoice is in that address's sorted list |
| RegistryRuns.StoredLog | common/src/lib.rs:1415-1446 | a stored log holds the last min(20, k) transitions, linked, ending in the current status, nothing after a settled one |
| RegistryAuthority.ChangeCommitsIff | common/src/lib.rs:1388-1412 | a status change commits if and only if it moves a known invoice along one of the twelve edges and the call may ask for it: the originator for its own calls, past the due date for overdue |
| RegistryAuthority.InvoicesChangeForAReason | registry/src/lib.rs:773-1186 | amounts change only while pending and by the originator, statuses only along the edges and for one of the reasons the calls give, due dates and currencies never; a new invoice is its caller's own, pending, due later, of at least ten million |
| RegistryAuthority.EntriesCommitIff | registry/src/lib.rs:773-888 | when registrations and amount updates go through, and what they set |
| RegistryAuthority.TokensMoveByRight | registry/src/lib.rs:116-154 | a live token changes hands only by a call of its owner or of the account approved for it before, between accounts in good standing, and starts without an approval; the originator changes with it and never otherwise; only the owner approves |
| RegistryAuthority.TokenCallsCommitIff | registry/src/lib.rs:2157-2251 | transfers, transfers on behalf and approvals go through if and only if the caller may, and parties are in good standing |
| RegistryAuthority.TokensLeaveByTheirOwner | registry/src/lib.rs:2157-2251 | from deployment, on every run: a token leaves its owner only by a call of that owner or of an account it approved itself since it last acquired the token |
| RegistryAuthority.RefusalsTell | registry/src/lib.rs:773-1186 | a refused call is told why, truthfully: missing, somebody else's, not possible in its state, out of limits, blacklisted, or there already |
| RegistryRuns.RebuiltCounts | registry/src/lib.rs:255-270 | a rebuild lists each invoice once, for its originator, ascending |
| RegistryRuns.BackfillListsCurrentInvoices | registry/src/lib.rs:253-270 | a registry without an index gets each of its invoices listed once, for its current originator, in ascending order; one with an index, complete or not, is left as it is |
| IndexMigration.BackfillCompletesIff | registry/src/lib.rs:253-270 | from a registry without an index whose tokens follow its invoices, on any run ending with the backfill: every invoice is listed for its current originator if and only if nothing was registered or transferred before the backfill was first called, or each invoice has been acquired by its current originator since |
| IndexMigration.RegistrationPreemptsBackfill | registry/src/lib.rs:500-502 | one registration ahead of the backfill: the backfill changes nothing and every older invoice stays unlisted |
| IndexMigration.CompleteStays | registry/src/lib.rs:241-270 | an index that lists every invoice keeps doing so on every later run |
| RegistryRuns.TransferFreeIndexIsRebuild | registry/src/lib.rs:245-270 | on runs without transfers the index kept step by step equals the rebuild |
| Paging.PagesTile | registry/src/lib.rs:1216-1244 | consecutive pages tile the list: nothing skipped, repeated or reordered |
| Paging.AllPages | registry/src/lib.rs:1216-1244 | enough pages give the whole list |
| Negotiation.LastProposalBy | financing/src/lib.rs:140-151 | the loop finds a side's live proposal |
| Negotiation.LiveIsLatest | financing/src/lib.rs:134-151 | a proposal is live if and only if it is a recorded round its side has not moved off since |
| Financing.Contract.CreateOffer | financing/src/lib.rs:350-442 | commits the specified offer or reverts |
| Financing.Contract.WithdrawOffer | financing/src/lib.rs:452-474 | commits or reverts, closing a running negotiation |
| Financing.Contract.RejectOffer | financing/src/lib.rs:618-653 | commits or reverts, closing a running negotiation |
| Financing.Contract.SettleAcceptance | financing/src/lib.rs:534-615 | money, offer, invoice and statistics move together; a failed transfer undoes everything |
| Financing.Contract.AcceptOffer | financing/src/lib.rs:480-523 | commits the specified acceptance or reverts |
| Financing.Contract.AmendOffer | financing/src/lib.rs:725-793 | commits the amendment, settled when it meets the counter-offer, or reverts the whole call |
| Financing.Contract.CounterOffer | financing/src/lib.rs:809-867 | commits the counter-offer, settled when it names the standing terms, or reverts the whole call |
| Financing.Contract.CloseNegotiation | financing/src/lib.rs:881-921 | stores and announces the outcome or reverts |
| Financing.Contract.UpdateLenderStatsRepaid | financing/src/lib.rs:1120-1128 | counts a full repayment once |
| NegotiationRuns.ProposalSettlesIffAgreed | financing/src/lib.rs:725-867 | a committed amendment or counter-offer settles if and only if the two sides' live proposals coincide once its round is recorded |
| NegotiationRuns.SettlementIsAgreement | financing/src/lib.rs:480-615 | an offer is funded only by its originator accepting it as it stands or by the live proposals of both roles being its standing terms, whoever held the originator's role when proposing, on a pending invoice, unexpired, negotiation unopened or open, parties not blacklisted; the lender pays exactly the standing amount to the originator |
| NegotiationRuns.RunKeepsTalks | financing/src/lib.rs:943-1018 | in every reachable state: at most 20 rounds, in order of time, within a deadline a permitted window after the opening; terms are the lender's last word; no pending offer sits on an unexecuted agreement; exactly one closing announced for each negotiation that is over |
| NegotiationRuns.RunGrows | financing/src/lib.rs:943-1018 | histories are append-only, deadlines frozen, stored outcomes final, and a negotiation that is over never reopens nor grows |
| FinancingAuthority.ProposalIsAddressed | financing/src/lib.rs:967-1018 | a committed amendment or counter-offer is exactly the round it names: the caller's side and terms, at that place, after the whole history before |
| FinancingAuthority.NoVersionIsAnsweredTwice | financing/src/lib.rs:981-985 | of two committed proposals on one offer in a run the later one names a later round |
| FinancingAuthority.OffersChangeForAReason | financing/src/lib.rs:350-914 | an offer changes only while pending: terms by its lender, off the table by either side, funded by its originator, or by its lender meeting what the originator stands by; a new offer is proper |
| FinancingAuthority.CreateCommitsIff | financing/src/lib.rs:350-440 | when an offer is created: lender in good standing, terms within limits, somebody else's pending invoice and within its amount |
| FinancingAuthority.LeavingCommitsIff | financing/src/lib.rs:452-476 | withdrawals are the lender's, rejections the originator's, of pending offers, and end a negotiation as closed |
| FinancingAuthority.AcceptCommitsIff | financing/src/lib.rs:480-606 | an acceptance is the originator's, of an unexpired pending offer on a pending invoice with a lender who can pay; the lender pays the originator, and offer, invoice and negotiation follow |
| FinancingAuthority.AmendCommitsIff | financing/src/lib.rs:725-793 | an amendment is the lender's, knowing the whole history of a running negotiation; it settles if and only if the originator stands by its terms, or reverts |
| FinancingAuthority.CounterCommitsIff | financing/src/lib.rs:809-870 | a counter-offer is the originator's, likewise; it settles if and only if it names the standing terms, or reverts |
| FinancingAuthority.CloseCommitsIff | financing/src/lib.rs:881-914 | a running negotiation is closed by a party, an expired one recorded by anybody, either once |
| FinancingAuthority.WindowRunsFromOpening | financing/src/lib.rs:689-698 | the window lies between an hour and thirty days, and the deadline runs from the opening round |
| FinancingAuthority.RefusalsTell | financing/src/lib.rs:350-914 | a refused call is told why, truthfully |
| InvoiceFit.AmendmentMayExceedInvoice | financing/src/lib.rs:725-793 | an otherwise valid amendment above the invoice's amount commits in any round, unless it meets the live counter-offer and fails to settle, and then stands or is funded above the invoice |
| InvoiceFit.LoweredInvoiceIsOverfunded | registry/src/lib.rs:861-888 | an originator who lowers the invoice below an offer on it and accepts that offer is paid more than the invoice is worth |
| InvoiceFit.StepFitsIff | financing/src/lib.rs:395-404 | from a state where every offer on the table or funded fits its invoice, a step keeps that if and only if it commits neither an amendment above the invoice's amount nor an amount update below an offer on it |
| InvoiceFit.RunFitsIff | financing/src/lib.rs:350-793 | every offer fits its invoice throughout a run if and only if no such call commits in it |
| InvoiceFit.FitsFromDeployment | financing/src/lib.rs:350-793 | in particular on every run from deployment |
| Authorship.BoundByOwnProposalIff | financing/src/lib.rs:664-674 | from deployment: the originator an amendment binds made the proposal it meets if and only if the invoice has not changed hands since, or came back to the author |
| Authorship.TransferBindsNewOriginator | financing/src/lib.rs:664-674 | after a transfer of a pending invoice by the author of the live counter-offer, the amendment that meets it commits, funds the offer, and pays the new originator the lender's principal |
| Authorship.SomeoneElseIsBound | financing/src/lib.rs:725-793 | such a run from deployment: one originator registers and counters, passes the token on, and the other one is bound and paid |
| Authorship.AmendmentPaysOriginator | financing/src/lib.rs:725-793 | an amendment that meets the live counter-offer on a pending invoice, within expiry, with both parties in good standing and a lender who can pay, commits and pays the originator of that moment |
| LenderStatistics.RunKeepsStats | financing/src/lib.rs:421-425 | each lender's running figures equal a scan over all offers: amounts offered, offers created, amounts funded, loans repaid |
| Loans.AccruedPenalty | repayment/src/lib.rs:49-76 | never negative, zero up to the due date, never above the cap's share of the base |
| Loans.PenaltyNeverFalls | repayment/src/lib.rs:49-76 | the penalty never falls in time, through both saturating products and the cap |
| Loans.ProRataInterest | repayment/src/lib.rs:137-145 | never negative, and zero without principal, rate or a full day |
| LoanAmounts.InterestIsExact | repayment/src/lib.rs:137-145 | interest is principal times rate times whole days over 3,650,000, rounded down, up to the largest amount the host represents |
| LoanAmounts.PenaltyIsExact | repayment/src/lib.rs:49-76 | the penalty is base times daily rate times whole days past due, at most base times the cap, over 10,000, rounded down |
| LoanAmounts.QuoteIsExact | repayment/src/lib.rs:695-717 | the quote of a running loan is what remains of its principal plus exactly that interest for whole days since funding and that penalty |
| LoanAmounts.PunctualLoan | repayment/src/lib.rs:695-717 | before the due date there is no penalty in it |
| LoanAmounts.SharesOfALoan | repayment/src/lib.rs:440-471 | the fee is its share of the payment, dust is below one per cent of the principal, and insured is principal plus flat yield less repaid |
| Loans.TotalPrincipalRepaid | repayment/src/lib.rs:152-165 | the loop sums the principal of the first thousand payments |
| LoanLaws.AcceptedIff | repayment/src/lib.rs:415-453 | a running loan takes a payment if and only if it is positive, not above the quote, not dust unless it settles the loan, and covered by the payer |
| LoanLaws.QuoteIsLargestAndCloses | repayment/src/lib.rs:695-717 | the quoted total due is the largest payment taken, and paying it closes the loan |
| LoanLaws.QuoteNeverFalls | repayment/src/lib.rs:695-717 | without a payment the quote of a running loan never falls in time |
| LoanLaws.ClosesIff | repayment/src/lib.rs:484-499 | a payment closes the loan if and only if it covers remaining principal and interest, with or without the penalty |
| LoanLaws.RecordSplits | repayment/src/lib.rs:455-499 | each record splits into non-negative interest and principal, the offer's repaid amount and the history grow alike, and the overshoot over the principal is at most the penalty |
| LoanLaws.InterestIsChargedAnew | repayment/src/lib.rs:415-436 | right after a payment the quote has gone down by the amount less the interest charged anew on what remains |
| LoanLaws.PaymentMoves | repayment/src/lib.rs:459-471 | a payment goes through if and only if the payer covers it, the fee going to its recipient and the rest to the lender |
| LoanCalls.OnlyRunningLoansTakePayments | repayment/src/lib.rs:357-414 | payments commit only on running loans, which run exactly for the originator of a financed invoice with an outstanding offer and principal left |
| LoanCalls.PaymentIsRecorded | repayment/src/lib.rs:459-489 | a payment is recorded as the next one of its invoice with its payer, amount and time, and moves the money |
| LoanCalls.ReclaimableIff | repayment/src/lib.rs:582-627 | a loan can be written off exactly by its lender, on an overdue invoice, seven days after the due date |
| LoanCalls.RefusedPayment | repayment/src/lib.rs:357-453 | a refused payment is told why, truthfully |
| LoanCalls.RefusedReclaim | repayment/src/lib.rs:582-663 | a refused reclaim is told why, truthfully |
| LoanCalls.NothingDueAfterwards | repayment/src/lib.rs:695-717 | a loan that is repaid or defaulted owes nothing |
| Repayment.Contract.RepayInvoice | repayment/src/lib.rs:357-560 | commits the specified payment in all contracts it calls or reverts them all |
| Repayment.Contract.SplitPayment | repayment/src/lib.rs:410-457 | the computed interest and remaining principal, or the specified error |
| Repayment.Contract.TotalDue | repayment/src/lib.rs:695-717 | computes the specified quote |
| Repayment.Contract.ReclaimInvoice | repayment/src/lib.rs:582-685 | commits default, insurance payout and reputation outcome together or reverts them all |
| ProtocolRuns.RunKeeps | repayment/src/lib.rs:357-685 | on every run, disputes and direct status edits included: at most one reputation outcome per invoice and only as what the invoice is, at most one insurance payout and within principal plus flat yield less what the offer counts as repaid, fundings bounded by the times an invoice was pending, and everything proved of the financing contract alone |
| ProtocolRuns.OneOutcomeOnePayout | repayment/src/lib.rs:357-685 | from deployment, on every run: at most one reputation outcome and one insurance payout per invoice, the payout on default and within principal plus flat yield less what the offer counts as repaid |
| OutcomeReports.StepReportsIff | repayment/src/lib.rs:357-685 | from a state in which repaid and defaulted invoices have exactly one outcome on record and others none, a step keeps that if and only if it ends no invoice by a direct change and closes or reclaims no loan without a reputation contract |
| OutcomeReports.RunReportsIff | repayment/src/lib.rs:357-685 | throughout a run each repaid or defaulted invoice has exactly one outcome on record and every other none, if and only if no such step commits in it |
| OutcomeReports.ExactlyOneOutcome | repayment/src/lib.rs:357-685 | in particular on every run from deployment |
| OutcomeReports.RecordIsStatus | repayment/src/lib.rs:503-560 | and the outcome on record is the invoice's own status |
| OutcomeReports.OrderlyRunsReport | repayment/src/lib.rs:357-685 | so with a reputation contract throughout, a run in lockstep has every outcome on record exactly once |
| PoolCustody.EveryTokenIsAccountedFor | insurance/src/lib.rs:810-1033 | from deployment, on every run: the pool holds what was donated and staked less what was withdrawn, the yield paid and the claims recorded, so that no payout goes uncounted |
| PoolCustody.RunKeepsAccounts | insurance/src/lib.rs:810-1033 | the books balance, principal is stakes less withdrawals and recorded claims, and nothing is reserved, on every run of the protocol |
| ProtocolRuns.StepIsSeen | financing/src/lib.rs:1080-1138 | the financing contract inside the protocol behaves as in its own runs |
| ProtocolRuns.ChangeKeepsStepIff | registry/src/lib.rs:830-1186 | from lockstep a committed direct status change keeps its invoice in step if and only if its target is Cancelled or Overdue, or Financed from Financed |
| ProtocolRuns.StepKeepsStepIff | repayment/src/lib.rs:357-685 | any step from lockstep stays there if and only if it is not another direct status change |
| ProtocolRuns.RunKeepsStep | repayment/src/lib.rs:357-685 | a run stays in lockstep throughout, one offer ever funded per invoice, if and only if its direct status changes are of that kind |
| ProtocolRuns.Lockstep | repayment/src/lib.rs:357-685 | offer running exactly while the invoice is Financed or Overdue, repaid and defaulted exactly when it is, its repaid amount the sum of the recorded principal, no other offer ever funded on it |
| ProtocolRuns.PaymentCounts | repayment/src/lib.rs:484-499 | a payment found to close the loan brings the principal recorded in full up to the loan; one found not to leaves the principal of the first thousand records below it |
| LongLoans.RemainingIsExactIff | repayment/src/lib.rs:152-165 | what is taken to remain is the principal less all that was recorded if and only if nothing was repaid past the thousandth record or the principal is covered either way |
| LongLoans.PaidForNothing | repayment/src/lib.rs:415-499 | past a thousand payments, one that does not close the loan leaves the quote where it was |
| LongLoans.InterestOnly | repayment/src/lib.rs:415-499 | payments of exactly the interest can be repeated up to the limit without changing what is due |
| LongLoans.LimitIsReached | repayment/src/lib.rs:415-499 | so a new loan can reach the limit with its whole principal open, and then nothing short of closing it is counted |
| ProtocolRuns.PaymentMovesOnlyItsLoan | repayment/src/lib.rs:357-560 | a payment leaves every other offer, invoice status, history, reputation record and the pool alone, and records an outcome for the payer exactly when it closes the loan |
| ProtocolRuns.ClaimWithinLoss | repayment/src/lib.rs:636-663 | the insurance paid for a default is at most principal plus flat yield less the principal in the payment history |
| ProtocolRuns.SomethingToClaim | repayment/src/lib.rs:640-648 | in lockstep there is something to claim if and only if the recorded principal is below principal plus flat yield, and always with at most a thousand payments |
| ProtocolRuns.ReclaimGoesThrough | repayment/src/lib.rs:582-685 | a reclaim past its own guards goes through if and only if there is no insurance, or there is something to claim and the pool holds the tokens it is to pay; it pays the smaller of exposure and pool, and defaults exactly this offer, invoice and originator record |
| ProtocolRuns.SettledForGood | common/src/lib.rs:1388-1412 | a settled invoice keeps status, payments, fundings, outcomes and claims on every later run, and takes neither payments nor a reclaim |
| ProtocolRuns.FinancedOnceUnlessReopened | financing/src/lib.rs:480-523 | an invoice that never went back to Pending has been financed at most once, on any run |
| ProtocolRuns.DisputeAllowsSecondFunding | registry/src/lib.rs:1150-1186 | from any state with a financed invoice and a payable second offer, a dispute resolved to Pending leads to both being funded |
| SecondFunding.StepFundsOnceIff | financing/src/lib.rs:480-523 | from a state with no invoice funded twice, a step keeps that if and only if it does not commit an acceptance, or a proposal meeting the other side, on an invoice funded before |
| SecondFunding.RunFundsOnceIff | financing/src/lib.rs:480-523 | no invoice is funded twice throughout a run if and only if no such settlement commits in it |
| SecondFunding.OnlyReopenedAgain | registry/src/lib.rs:1150-1186 | an invoice settled once more has gone back to Pending at least as often as it was funded |
| ProtocolRuns.DirectRepaidStrandsTheLoan | registry/src/lib.rs:926-958 | marking an invoice repaid directly leaves its loan beyond repayment and reclaim for good |
| ProtocolRuns.DirectDefaultStrandsTheLender | registry/src/lib.rs:830-858 | an originator's own Overdue to Defaulted blocks the reclaim, the insurance payout and the recorded default for good |
| EventLog.RecordAppends | event_indexer/src/lib.rs:226-283 | recording appends one record and keeps all three indices in agreement with the log |
| EventLog.PruneRemovesPrefix | event_indexer/src/lib.rs:418-481 | pruning removes exactly the older records, a prefix, and keeps all indices in agreement |
| EventLog.RunKeeps | event_indexer/src/lib.rs:226-481 | in every reachable state ids increase strictly, each index is the scan of the log for its key, and the count is its length |
| EventLog.RunRefinesList | event_indexer/src/lib.rs:226-481 | whatever is recorded and pruned, the log is what the same operations make of a plain list |
| EventLog.IndicesFromDeployment | event_indexer/src/lib.rs:226-481 | from deployment the global list and both indices are scans of that list, ids increase, the count is its length, and every record loads |
| EventLog.ScansMean | event_indexer/src/lib.rs:298-390 | a scan holds exactly the records of the type, by the actor, or within the range with both ends included, in order |
| EventIndexer.Contract.RecordEvent | event_indexer/src/lib.rs:226-283 | commits the specified record |
| EventIndexer.Contract.EventsByType | event_indexer/src/lib.rs:298-319 | exactly the requested page of the scan by type |
| EventIndexer.Contract.EventsByActor | event_indexer/src/lib.rs:369-390 | exactly the requested page of the scan by actor |
| EventIndexer.Contract.EventsByTime | event_indexer/src/lib.rs:333-361 | exactly the requested page of the scan by time range |
| EventIndexer.Contract.PruneEvents | event_indexer/src/lib.rs:418-481 | the nested loops commit the specified pruned store |
| SemVer.ParseVersion | common/src/lib.rs:179-217 | the byte loop computes the specified parse |
| SemVer.ParsePrint | common/src/lib.rs:179-217 | every triple of 32-bit numbers is what its canonical notation parses to |
| SemVer.PrintParse | common/src/lib.rs:179-217 | every accepted string is the canonical notation of what it parses to |
| SemVer.ReadsDecimals | common/src/lib.rs:179-217 | two versions read digit by digit |
| SemVer.LengthNeverDecides | common/src/lib.rs:179-190 | the length limits refuse nothing the scanner would accept |
| SemVer.LengthLimitsAreTight | common/src/lib.rs:179-190 | both limits are attained |
| Upgrade.Lifecycle.BeginUpgrade | common/src/lib.rs:243-269 | schedules a strictly newer release or reverts |
| Upgrade.Lifecycle.CompleteUpgrade | common/src/lib.rs:272-282 | makes the scheduled release current or reverts |
| Upgrade.Lifecycle.RollbackUpgrade | common/src/lib.rs:287-309 | restores the retained release or reverts |
| UpgradeRuns.UpgradesRaiseRollbacksRestore | common/src/lib.rs:243-309 | on every run completed upgrades strictly raise the version, to the one begun last, and a rollback restores exactly the version before the last completed upgrade and the executable that ran when it was begun, at most once between upgrades |
| UpgradeRuns.LifecycleCallsCommitIff | common/src/lib.rs:243-309 | when upgrades begin, complete and are rolled back |
| UpgradeRuns.RollbackUndoesUpgrade | common/src/lib.rs:243-309 | an upgrade that begins completes to its version and rolls back to the version and executable it began from, once |
| UpgradeRuns.RefusalsTell | common/src/lib.rs:243-309 | a refused call is told why, truthfully |
| UpgradeRuns.LessIsRank | common/src/lib.rs:156-162 | precedence is the order of the three numbers read as one |
| Decay.ApplyPendingDecay | reputation/src/lib.rs:105-115 | the halving loop computes the specified decay |
| Decay.HalveIsDivision | reputation/src/lib.rs:105-115 | halving n times is one floor division by two to the n |
| Decay.SplitDecay | reputation/src/lib.rs:105-115 | an intermediate recomputation loses exactly one halving when the two started half-lives add up to another one, and none otherwise |
| Reputation.Contract.RecordOutcome | reputation/src/lib.rs:249-296 | decays, then counts the outcome at full weight, announcing a changed score |
| Reputation.Contract.ResolveDispute | reputation/src/lib.rs:318-358 | decays, then takes one default back when decided for the originator |
| Reputation.RunKeeps | reputation/src/lib.rs:249-358 | in every reachable record weighted repayments lie between zero and repayments, weighted defaults between zero and twice the defaults |
| Reputation.ScoresAreEarned | reputation/src/lib.rs:249-376 | from deployment on every score lies between zero and the repayments recorded |
| Reputation.OutcomesWeigh | reputation/src/lib.rs:105-115 | an outcome divides both weights by two to the whole half-lives of ninety days passed, then counts one or two; a dispute won takes one default and two of its weight back |
| Reputation.FullScore | reputation/src/lib.rs:360-376 | without decay the score is repayments less twice the defaults, and never negative |
| Reputation.CountsAreReports | reputation/src/lib.rs:249-358 | from deployment, a record counts the repayments reported for its originator, and the defaults unless a dispute was won |
| Decay.RunOfRecomputations | reputation/src/lib.rs:105-115 | a run of recomputations halves once per whole half-life in each gap, and differs from one at the end by exactly what the leftovers add up to |
| Reputation.NeverDecaysIff | reputation/src/lib.rs:249-296 | an originator with a record keeps all of it at full weight if and only if no gap between its outcomes reaches a half-life |
| Reputation.FrequentOutcomesNeverDecay | reputation/src/lib.rs:105-115 | with an outcome in every half-life nothing ever decays |
| Signers.ValidateSigners | common/src/lib.rs:834-848 | accepts exactly the duplicate-free configurations within the cap whose threshold can be met |
| Signers.AssertThreshold | common/src/lib.rs:860-877 | passes exactly for distinct configured signers who signed, in sufficient number |
| Signers.ApprovalHasQuorum | common/src/lib.rs:860-877 | an approved call carries signatures of at least threshold different signers |
| Signers.MajoritiesMeet | common/src/lib.rs:860-877 | under a majority threshold any two approvals share a signer |
| Signers.NeverLockedOut | common/src/lib.rs:829-848 | no run of reconfigurations leaves a configuration that cannot be met |

## Left out

- Authorization, pausing, blacklist management, contract addresses and other setters: callers and configuration are
  parameters, and a failed signature check reverts like any other error. The payout caller of the pool is the
  repayment contract, which never reserves or claims: those entry points appear in the insurance contract's own runs
  and not in those of the whole protocol.
- Storage keys and lifetimes, contract deployment, executable replacement, and events other than the closing
  announcements of negotiations and the reputation score changes.
- Token allowances, several currencies and position tokens: one settlement token and one staking token, each a map
  of balances whose transfer fails when funds are short.
- Token ids: the hash of an invoice id is taken to be injective.
- Overflow of 128-bit amounts, which aborts the original: amounts are unbounded except in the saturating products of
  interest and penalty.
- Batch registration, amendments of invoices, repayment schedules, risk assessment, fees other than the protocol fee
  on repayments, and unordered scans: they add only easy members.
- Changing the staking token of a running pool, which the original does not migrate either.
- Verification fees: whether the fee transfer succeeds is a parameter of an attestation.
- Protocol-wide statistics of the financing contract, which only ever grow.
