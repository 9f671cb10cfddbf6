# Prism hub: a verified model of the liquid-staking books

The prism hub takes a staking coin, delegates it, and issues a token against it.  Token
holders hand tokens back; their requests gather in a batch, the batch is undelegated once per
epoch, and when the coins have come back users withdraw their part.  All amounts are 128-bit
integers and all rates 18-digit decimals, floored at every step, and a call that fails
reverts.  This project models that state machine and proves what it keeps: that the exchange
rate never overstates the backing, that wait lists and history agree, that users are paid
exactly what they are owed, and exactly when the coins that arrived cover what a release hands
out.  Two smaller parts are modelled as well: the 256-bit decimal parser and printer, and the
paging of the unbond history by byte-string keys.

`dafny verify dfyconfig.toml` verifies the whole project.

## Layout

| file | contents |
|---|---|
| `Fixed.dfy` | checked 128-bit arithmetic, floors, the signed difference |
| `Sums.dfy` | sums over wait lists, flooring ticket by ticket |
| `HubTypes.dfy` | storage, chain, messages, and how the chain applies messages |
| `ExchangeRate.dfy` | rate update, slashing check, decimal division |
| `Release.dfy` | the arithmetic of one release: shares, credits, what covers them, fairness |
| `Undelegation.dfy`, `Shuffles.dfy` | splitting an undelegation over randomly chosen delegations |
| `HubSteps.dfy` | every call as a function, transactions, and runs |
| `Hub.dfy` | class `Hub`: the entry points, updating their fields in place |
| `Backing.dfy`, `Peg.dfy`, `Requests.dfy` | rate, peg fee, dilution, requests, recorded bond |
| `Effects.dfy`, `Ledger.dfy`, `Books.dfy` | effects of messages; invariants of the books |
| `Runs.dfy`, `Payouts.dfy`, `Accounts.dfy` | theorems over runs: books, backing, solvency, payouts, accounts |
| `Outcomes.dfy` | the whole storage, messages and rate after a call |
| `Epochs.dfy`, `Rates.dfy` | how often batches close, and how far the rate can fall, over a run |
| `Guarantees.dfy` | all guarantees from instantiation, under conditions on slashings and arrivals |
| `RoundTrips.dfy` | bonding and at once unbonding: what can be gained |
| `Liveness.dfy` | exactly which calls go through, and what blocks them |
| `Counterexamples.dfy` | runs from instantiation on which a guarantee fails |
| `Decimal256.dfy`, `PrintedForm.dfy` | decimal strings: parsing, printing, the printed form |
| `HistoryPages.dfy` | history pages |

The methods of class `Hub` are proved to compute the functions of `HubSteps`; the lemmas are
about those functions.  A transaction (`HubSteps.Transact`) is a call with all the messages it
emits applied to the chain, or nothing; a run is any sequence of calls by any users, with
parameters chosen anew per call, mixed with time passing, coins arriving, and validators being
slashed.  Overflow, zero denominators and negative differences abort a step as in the code.

## What the code does not keep

The members of `Counterexamples` named below are runs from instantiation that end in the failure.

* A release whose cut exceeds a batch's value takes the absolute value of the difference.
  `Release.FlipsIff` says when: a batch worth nothing, or nothing arrived and an exact weight.
  A moderate release is over-credited exactly when nothing arrived and some weight is exact
  (`Release.ModerateCoveredIff`).  In `Counterexamples.NothingArrivedRun` a user is then paid a
  coin that another user is owed.
* With two or more batches a larger shortfall can be over-credited too: exactly when lost weight
  times shortfall, the residues of the shares and two units per flip exceed 10^18 for every
  batch (`Release.ShortfallCoveredIff`), so always once lost weight times shortfall alone does
  (`Release.LostWeightOverpays`).  With two batches a shortfall of 10^18 + 3 units can be enough
  (`Release.LargeShortfallOverpays`).  In `Counterexamples.LargeShortfallRun` the last withdrawal
  then fails for want of one coin.
* A surplus too small to give every matured batch one unit makes every withdrawal fail
  (`Liveness.SmallSurplusBlocks`, `Counterexamples.SmallSurplusRun`).
* A batch closed without tokens makes every withdrawal that reaches it fail, for good
  (`Liveness.EmptyBatchBlocksForever`, `Counterexamples.EmptyBatchRun`).
* With no token outstanding, a bond too small to mint a token, or an unbond of nothing, resets
  a rate above 1.0 to 1.0 (`Peg.BondDilutionIff`, `Peg.UnbondKeepsRateIff`,
  `Counterexamples.ResettingRun`).  The hub accepts both; they mint, send and burn zero tokens,
  so they go through only with a token contract that allows that, which a cw20-base token does
  not.
* A slashing check that finds the delegations worth nothing behind a recorded bond and
  outstanding tokens sets the rate to 1.0; in any run from instantiation this is the only way a
  backed rate loses its backing (`Guarantees.LosesOnlyWhenWiped`, `Counterexamples.StrandingRun`).
* When the peg fee is due although there are more coins than tokens, the required fee is
  negative and the call aborts: every unbond, and every bond that does not restore the balance
  (`Liveness.UnbondSucceedsIff`, `Liveness.BondSucceedsIff`, `Counterexamples.LockedRun`).
* Bonding and at once unbonding can pay more than it costs, exactly when the bonded coins exceed
  the tokens, taken at one atomic more than the truncated rate, by a whole coin
  (`RoundTrips.ProfitableIff`).  After a deposit at instantiation, which mints nothing, the first
  bonder takes it (`Counterexamples.FirstBondTakesDeposit`).  The gain is bounded by what the
  truncated rate understates the backing (`RoundTrips.RoundTripGain`): rounding of reward updates
  included, and at a freshly computed rate only the truncation itself (`RoundTrips.FreshGain`).
* A comment says that arrived coins are kept for future releases, but every withdrawal that goes
  through counts all that has arrived, also when it releases nothing
  (`Liveness.EarlyCoinsAreAbsorbed`).  A release sees exactly the coins received since the last
  such withdrawal (`Accounts.ArrivedSinceLast`): coins that come in before their batch matures
  reach it if nobody withdraws in between (`Accounts.ArrivalsWait`), and otherwise not; in
  `Counterexamples.EarlyCoinsRun` all promised coins arrive, a user is paid 1 coin of 5, and 4
  coins stay behind without a claim.
* The decimal parser's comment excludes the empty string and a missing whole part; the code
  accepts both (`Decimal256.EmptyWholeParses`).

## Model

| member | source | states |
|---|---|---|
| Fixed.FromSubtraction | packages/signed_integers/src/signed_integer.rs:13-24 | magnitude and sign give back the exact integer difference; a difference of zero is not negative |
| ExchangeRate.UpdatedRateIsLargest | packages/prism-protocol/src/hub.rs:58-65 | the recomputed rate is the largest rate the bonded coins back |
| ExchangeRate.UpdatedRateBackedIff | packages/prism-protocol/src/hub.rs:58-65 | a recomputed rate is backed exactly when it is not the 1.0 of an empty bond behind outstanding tokens |
| Outcomes.UpdatedRateIs | packages/prism-protocol/src/hub.rs:58-65 | the recomputed rate is 1.0 without coins or tokens and else the largest the coins back; there is only one such rate (`Outcomes.RateIsUnique`) |
| ExchangeRate.DecimalDivisionIs | contracts/prism_hub/src/math.rs:4-10 | the two-step division aborts exactly when the divisor is below 10^-9 or a number on the way does not fit, and is otherwise the single floor of a * 10^9 over the divisor's whole multiples of 10^-9 |
| ExchangeRate.DecimalDivisionBounds | contracts/prism_hub/src/math.rs:4-10 | the quotient understates a / b by less than one unit and overstates it by at most the truncation of the divisor |
| Release.ShareBounds | contracts/prism_hub/src/unbond.rs:275-278 | the twice-floored share of the gap stays within the proportional part and within one unit plus gap / 10^18 of it |
| Release.FlipsIff | contracts/prism_hub/src/unbond.rs:285-296 | the cut exceeds the batch's value, so that the absolute value flips, exactly when the batch is worth nothing or nothing arrived and its weight is exact; the share itself never exceeds the value |
| Release.ShortfallIsFair | contracts/prism_hub/src/unbond.rs:274-297 | in a shortfall a credit is at most one unit below and less than gap / 10^18 above its exact proportional part |
| Release.SurplusIsFair | contracts/prism_hub/src/unbond.rs:274-284 | in a surplus a credit is between one unit and two units plus gap / 10^18 below its exact part |
| Release.CreditIsFair | contracts/prism_hub/src/unbond.rs:274-297 | proportional fairness within 2 + gap / 10^18 for every batch of every release, flips included |
| Release.WeightsSum | contracts/prism_hub/src/unbond.rs:275-276 | the floored weights of a release lose at most one atomic for every batch but one |
| Release.ShortfallExcess | contracts/prism_hub/src/unbond.rs:250-310 | in a shortfall the credits miss the arrived coins by lost weight times shortfall, less more than nothing and at most a unit per batch, plus two units per flip |
| Release.ShortfallCoveredIff | contracts/prism_hub/src/unbond.rs:250-310 | in any shortfall the credits sum to at most the arrived coins exactly when lost weight times shortfall, the residues of the shares and two units per flip fit one unit per batch |
| Release.ModerateCoveredIff | contracts/prism_hub/src/unbond.rs:250-310 | when every batch is worth something and shortfall times (batches - 1) is at most 10^18, the credits sum to at most the arrived coins exactly unless nothing arrived and some batch's weight is exact |
| Release.SurplusIsCovered | contracts/prism_hub/src/unbond.rs:281-289 | the credits of a surplus leave at least one unit per batch |
| Release.LostWeightOverpays | contracts/prism_hub/src/unbond.rs:274-297 | every release whose shortfall, times the weight atomics lost to flooring, exceeds 10^18 per batch credits more than arrived |
| Release.SingleBatchCoveredIff | contracts/prism_hub/src/unbond.rs:285-296 | a batch released alone is credited at most what arrived exactly when something arrived |
| Release.LargeShortfallOverpays | contracts/prism_hub/src/unbond.rs:274-297 | two batches and a shortfall of 10^18 + 3 are credited one unit more than arrived |
| Undelegation.PickSplitsTheClaim | contracts/prism_hub/src/unbond.rs:336-364 | for any choices the claim can be split exactly when it is at most the delegations, into positive amounts that sum to it |
| Undelegation.PickUsesEachOnce | contracts/prism_hub/src/unbond.rs:336-364 | the messages use different delegations, each within its amount, and all but the last drain theirs |
| Undelegation.PickIsAccepted | contracts/prism_hub/src/unbond.rs:86-94 | the chain accepts every emitted undelegation, and the delegations go down by the claim |
| Shuffles.PickDrains | contracts/prism_hub/src/unbond.rs:336-364 | removing randomly chosen entries is draining the delegations from the front in the order in which they are drawn |
| Shuffles.AnyOrderCanHappen | contracts/prism_hub/src/unbond.rs:343-345 | every order of the delegations can be drawn |
| Backing.BondIsSound | contracts/prism_hub/src/bond.rs:69-77 | a bond leaves the rate backed whatever it was before |
| Backing.RewardKeepsSound | contracts/prism_hub/src/autho_compounding.rs:58-60 | the incremental rate update keeps the rate backed, and falls behind the growing bond by less than one atomic per token |
| Backing.SlashingKeepsSoundIff | contracts/prism_hub/src/contract.rs:303-338 | a slashing check loses the backing exactly when there are delegations, all worth nothing, behind a recorded bond with tokens outstanding; a rate it recomputes over some bond is within one atomic per token of the backing |
| Backing.EpochKeepsSound | contracts/prism_hub/src/unbond.rs:71-115 | taking a closed batch's floored value out of the bond keeps the rate backed for the tokens left |
| Backing.UnbondSoundIff | contracts/prism_hub/src/unbond.rs:32-115 | a successful unbond, with or without closing the batch, leaves the rate unbacked exactly when no bond was recorded or the delegations are worth nothing, and it does not take the last tokens or some stay requested |
| Peg.BondRecoversPeg | contracts/prism_hub/src/bond.rs:61-77 | when the fee applies a bond ends at a rate of at most 1.0 |
| Peg.UnbondRecoversPeg | contracts/prism_hub/src/unbond.rs:41-63 | when the fee applies an unbond ends at a rate of at most 1.0 |
| Peg.UnbondKeepsRateIff | contracts/prism_hub/src/unbond.rs:41-63 | an unbond never lowers a backed rate, exactly except for a rate above 1.0 with no token outstanding |
| Peg.BondDilutionIff | contracts/prism_hub/src/bond.rs:58-77 | a bond never lowers a backed rate below its truncation to nine places, so by less than 10^-9, exactly except when the first tokens cost more than the payment |
| Counterexamples.ResettingRun | contracts/prism_hub/src/bond.rs:58-77 | a run to a backed rate of 1.5 without tokens, where a bond of one coin mints nothing and resets the rate to 1.0, and so does an unbond of nothing |
| Requests.BondFee | contracts/prism_hub/src/bond.rs:58-91 | the sender is minted the quotient less a fee within the cap, and less than the cap is charged only to end at exactly 1.0; the validator gets the payment |
| Requests.RequestFee | contracts/prism_hub/src/unbond.rs:39-50 | the same for the part of an unbond that is kept back |
| Requests.UnbondRecords | contracts/prism_hub/src/unbond.rs:50-121 | the whole storage after an unbond: the net amount goes to the sender's ticket of the current batch and nowhere else; the batch closes exactly once per epoch, with an entry promised exactly what leaves the bond, and only then is the epoch clock set |
| Outcomes.InitialIs | contracts/prism_hub/src/contract.rs:69-100 | the whole storage at instantiation: rate 1.0, the deposit bonded, an empty first batch, nothing recorded, the epoch clock at the block time |
| Outcomes.CheckOutcome | contracts/prism_hub/src/contract.rs:303-338 | a check without a loss changes nothing; one with a loss records the delegations and recomputes the rate for all tokens, and changes nothing else |
| Outcomes.BondOutcome | contracts/prism_hub/src/bond.rs:17-91 | only a listed validator and a payment; the payment joins the checked bond, the rate is recomputed with the minted tokens, nothing else changes, and the messages are the delegation and the mint |
| Outcomes.RewardOutcome | contracts/prism_hub/src/autho_compounding.rs:19-102 | only from the rewards contract; the rate rises by the floored part of the kept coins per token, neither more nor less, the bond by the kept coins, nothing else changes; the fee goes to the collector and the rest to the drawn delegation |
| Outcomes.RewardSucceedsIff | contracts/prism_hub/src/autho_compounding.rs:19-102 | exactly when a reward goes through |
| Outcomes.WithdrawOutcome | contracts/prism_hub/src/unbond.rs:159-203 | the whole storage, chain and message of a withdrawal, but for what is released and paid |
| Epochs.UnbondCloses | contracts/prism_hub/src/unbond.rs:65-115 | an unbond closes the batch exactly when more than the epoch period has passed on the clock, and else leaves clock and history alone |
| Epochs.OncePerEpoch | contracts/prism_hub/src/unbond.rs:65-115 | over every run from instantiation the clock shows the last closing, closings are more than the epoch period apart, and none comes earlier than that after instantiation |
| Requests.StepTracks | contracts/prism_hub/src/contract.rs:311-334 | the recorded bond never falls below the delegations; after a bond, unbond or check it equals them exactly unless there was no delegation at all and a bond was recorded |
| Requests.BondExactOverRuns | contracts/prism_hub/src/contract.rs:303-338 | without slashing the recorded bond equals the delegations in every run |
| Requests.TracksOverRuns | contracts/prism_hub/src/contract.rs:303-338 | with slashing the record never falls below the delegations in any run |
| Effects.UnbondEffect | contracts/prism_hub/src/unbond.rs:86-136 | the chain takes all messages of an unbond: tokens burnt, delegations down by what left the bond, nothing else changed |
| Effects.BondEffect | contracts/prism_hub/src/bond.rs:79-107 | a bond delegates all it receives, so the liquid balance is unchanged |
| Effects.RewardEffect | contracts/prism_hub/src/autho_compounding.rs:43-103 | the chain takes all messages of a reward: the floored fee is sent, the rest delegated and recorded, and the liquid balance is unchanged |
| HubSteps.WindowEnd | contracts/prism_hub/src/unbond.rs:226-247 | every batch before the end of the window is closed, old enough and unreleased, and the next is not |
| Ledger.WindowIsTheMatured | contracts/prism_hub/src/unbond.rs:224-310 | with the books in shape the window is exactly the unreleased batches with time at most the cutoff |
| Ledger.ReleaseRewrites | contracts/prism_hub/src/unbond.rs:255-309 | a release replaces exactly the entries of its window, each computed from the entry before |
| Ledger.ReleasedEntryIs | contracts/prism_hub/src/unbond.rs:270-306 | a released entry is the old one marked, at its credit spread over its tokens; it takes tokens, a positive total, and at least one unit of a surplus |
| Ledger.TicketAdds | contracts/prism_hub/src/state.rs:24-39 | a request adds to the total of its own batch only |
| Ledger.ReleaseAddsAtMostCredits | contracts/prism_hub/src/unbond.rs:250-310 | a release adds at most its credits to the claims of all users |
| Books.ReleaseMarks | contracts/prism_hub/src/unbond.rs:224-310 | entry by entry, exactly the old unreleased batches are marked, and they are those up to the new last processed batch |
| Books.RequestConserved | contracts/prism_hub/src/unbond.rs:50-63 | recording a request keeps wait lists and requested amount in agreement and changes no claim |
| Books.EpochConserved | contracts/prism_hub/src/unbond.rs:99-111 | closing a batch keeps wait lists in agreement with the recorded amount and changes no claim |
| Books.ReleaseKeepsBooks | contracts/prism_hub/src/unbond.rs:208-316 | a release keeps history shape and wait-list conservation and changes no wait list |
| Runs.InitialInv | contracts/prism_hub/src/contract.rs:69-100 | the instantiated hub satisfies the books, backing and recorded bond, owes nothing, and its epoch clock shows the block time |
| Runs.BooksOverRuns | contracts/prism_hub/src/unbond.rs:50-115 | in every run: wait lists sum to the requested or recorded amounts, history ids, times and release marks are in shape, liquid balance is at least the recorded one, and history is only extended |
| Runs.StepSoundIff | packages/prism-protocol/src/hub.rs:58-65 | a transaction loses the backing exactly when a check finds the delegations wiped behind a recorded bond and tokens, or an unbond goes through without any bond and leaves tokens |
| Runs.AlwaysSoundIff | packages/prism-protocol/src/hub.rs:58-65 | the rate is backed throughout a run exactly when no transaction of it strands tokens |
| Runs.BackingOverRuns | packages/prism-protocol/src/hub.rs:58-65 | in every run that never strands tokens the rate never overstates the backing |
| Runs.CoveredIff | contracts/prism_hub/src/unbond.rs:250-310 | for the hub's own window, a moderate release credits no more than arrived exactly unless nothing arrived for it and some batch's weight is exact |
| Runs.ShortfallCoveredIff | contracts/prism_hub/src/unbond.rs:250-310 | the same exact condition of any shortfall for the hub's own window |
| Runs.CoveredReleaseIsSolvent | contracts/prism_hub/src/unbond.rs:218-310 | a release that credits no more than arrived leaves all claims within the liquid balance |
| Runs.PayoutIsCovered | contracts/prism_hub/src/unbond.rs:183-184 | the payout never exceeds the liquid balance, so recording the rest cannot fail |
| Runs.CoveredRunsAreSolvent | contracts/prism_hub/src/unbond.rs:146-316 | in every run whose releases credit no more than arrived the recorded balance covers all claims |
| Runs.SolvencyOverRuns | contracts/prism_hub/src/unbond.rs:146-316 | in every run where each successful withdrawal finds something arrived, every matured batch worth something, and shortfall times (batches - 1) at most 10^18, the recorded balance covers the claims of all users on all released batches |
| Guarantees.BackedWhenSpared | packages/prism-protocol/src/hub.rs:58-65 | in every run where no slashing takes the last delegated coin nothing is ever stranded and the rate is backed throughout |
| Guarantees.LosesOnlyWhenWiped | contracts/prism_hub/src/contract.rs:327-334 | from instantiation on a backed world without a bond has no token outstanding, and the backing is lost only in a slashing check that finds the delegations worth nothing behind a recorded bond |
| Guarantees.FromInstantiation | contracts/prism_hub/src/contract.rs:35-130 | books, backing and solvency together over every run from instantiation, if no slashing takes the last delegated coin and withdrawals find ample coins |
| Rates.StepRate | contracts/prism_hub/src/bond.rs:58-77 | with nothing slashed and a token outstanding only a bond lowers the rate, at worst to its truncation to nine places |
| Rates.RateOverRuns | packages/prism-protocol/src/hub.rs:58-65 | over every unslashed run in which some token stays outstanding the rate falls by less than 10^-9 per bond, and not otherwise |
| Accounts.AccountsOverRuns | contracts/prism_hub/src/unbond.rs:183-219 | over every run the recorded balance is its start plus arrivals less payouts, to the coin, and claims grow by at most credits less payouts |
| Accounts.ArrivedSinceLast | contracts/prism_hub/src/unbond.rs:218-219 | after any run exactly the coins received since the last successful withdrawal count as arrived |
| Accounts.ArrivalsOverRuns | contracts/prism_hub/src/unbond.rs:218-219 | over every run arrived and received coins are those its withdrawals counted and those still uncounted |
| Accounts.ArrivalsWait | contracts/prism_hub/src/unbond.rs:311-312 | in a run without a successful withdrawal all received coins are kept for the next release |
| Accounts.SolventInTotal | contracts/prism_hub/src/unbond.rs:183-219 | a run ends solvent whenever its credits in total are within its arrivals and the initial excess |
| Accounts.PaidOutByBatch | contracts/prism_hub/src/unbond.rs:167-195 | over every run the coins sent to users are the sum of the payouts of all batches |
| Accounts.PaidOutWithinBatches | contracts/prism_hub/src/unbond.rs:167-195 | from instantiation on, all coins ever paid are at most what the released batches are worth at their recorded rates |
| Counterexamples.NothingArrivedRun | contracts/prism_hub/src/unbond.rs:285-296 | a run to a solvent world where a withdrawal for which nothing arrived succeeds and pays a coin that another user is owed |
| Counterexamples.EarlyCoinsRun | contracts/prism_hub/src/unbond.rs:311-312 | a run in which all promised coins arrive, some before their batch matures and before a withdrawal; the batch is then paid 1 coin of 5 and 4 coins are left without a claim |
| Counterexamples.LargeShortfallRun | contracts/prism_hub/src/unbond.rs:274-310 | a run with a shortfall of 10^18 + 3 over two batches, after which the last user's withdrawal fails for want of one coin |
| Counterexamples.SmallSurplusRun | contracts/prism_hub/src/unbond.rs:281-284 | a run after which one coin of surplus makes every user's withdrawal fail |
| Counterexamples.EmptyBatchRun | contracts/prism_hub/src/unbond.rs:41-50 | a run where the fee takes a whole request and the batch is closed empty; after whatever follows, withdrawals that reach it fail |
| Counterexamples.StrandingRun | contracts/prism_hub/src/contract.rs:327-334 | a run where the only delegation is slashed away and the next check leaves the rate unbacked |
| Counterexamples.LockedRun | contracts/prism_hub/src/bond.rs:61-67 | a run to a backed rate just below 1.0 where every unbond and every bond of less than 999999999 coins aborts |
| Counterexamples.FirstBondTakesDeposit | contracts/prism_hub/src/contract.rs:69-77 | a run where the first bond of 3 coins is promised 6, with the deposit, for the tokens it minted |
| Payouts.WithdrawClearsExactly | contracts/prism_hub/src/unbond.rs:167-195 | the balance drops by exactly the sender's released claims, exactly those tickets are removed, and nothing of any other user changes |
| Payouts.PaidByBatch | contracts/prism_hub/src/unbond.rs:167-195 | the coins a withdrawal sends are the sum of what it pays on each batch |
| Payouts.ClaimsConservedOverRuns | contracts/prism_hub/src/state.rs:86-130 | for a released batch, claims outstanding plus payouts are constant over every run |
| Payouts.RateWithinCredit | contracts/prism_hub/src/unbond.rs:298-306 | a batch's amount at its released rate is at most what it was credited |
| Payouts.PayoutsWithinBatch | contracts/prism_hub/src/unbond.rs:167-195 | over every run all payouts of a batch, with the claims still open, stay within its amount at its released rate, and nothing is paid before the release |
| Payouts.TicketWorth | contracts/prism_hub/src/state.rs:111-130 | a ticket is worth at most its proportional part of the batch's credit and misses it by less than one coin plus its tokens / 10^18 |
| Payouts.PayoutsNearCredit | contracts/prism_hub/src/unbond.rs:167-195 | over every run that releases a batch its payouts and open claims are at most its credit, and less than one coin per ticket plus its tokens / 10^18 below it |
| Liveness.EpochSucceedsIff | contracts/prism_hub/src/unbond.rs:71-97 | with a backed rate an epoch undelegation fails exactly when the batch is worth one coin, and is otherwise accepted by the chain |
| Liveness.CheckSucceedsIff | contracts/prism_hub/src/contract.rs:303-338 | exactly when a slashing check goes through |
| Liveness.ChargeableIff | contracts/prism_hub/src/unbond.rs:41-46 | with a recovery fee of at most 1.0 the fee can be charged exactly unless it is due with more coins than tokens |
| Liveness.RequestSucceedsIff | contracts/prism_hub/src/unbond.rs:41-63 | for any recovery fee a request fails exactly when it is for more tokens than there are, the fee cannot be charged, or the new rate does not fit |
| Liveness.UnbondSucceedsIff | contracts/prism_hub/src/unbond.rs:32-115 | an unbond goes through exactly when its request does and a batch that closes is not worth one coin and fits the bond and the delegations |
| Liveness.UnbondCannotGetStuck | contracts/prism_hub/src/unbond.rs:63-97 | after a slashing check that leaves a positive bond, an admitted unbond fails only over a batch worth one coin |
| Liveness.BondSucceedsIff | contracts/prism_hub/src/bond.rs:58-77 | for any recovery fee a bond is refused exactly when the division does not fit, the fee cannot be charged, or the new rate does not fit |
| Liveness.EntryReleasesIff | contracts/prism_hub/src/unbond.rs:270-306 | exactly when one batch can be released: tokens, a positive total, a unit of any surplus, and cut, credit and rate that fit |
| Liveness.BatchesReleaseIff | contracts/prism_hub/src/unbond.rs:255-309 | a release goes through exactly when each of its batches can be released |
| Liveness.ReleaseSucceedsIff | contracts/prism_hub/src/unbond.rs:208-316 | for the hub's books, a release succeeds exactly when arrivals and promised total fit and every unreleased batch that is old enough can be released |
| Liveness.WithdrawOkIff | contracts/prism_hub/src/unbond.rs:146-195 | a withdrawal succeeds exactly when its release does and the sender is then owed something that the balance covers |
| Liveness.WithdrawSucceedsIff | contracts/prism_hub/src/unbond.rs:146-195 | for a solvent hub and ample coins a withdrawal succeeds exactly when its release does and the sender is then owed something |
| Liveness.SmallSurplusBlocks | contracts/prism_hub/src/unbond.rs:281-284 | a surplus too small for one matured batch makes the withdrawals of all users fail |
| Liveness.EmptyBatchBlocks | contracts/prism_hub/src/unbond.rs:299-300 | a matured batch without tokens makes the withdrawals of all users fail |
| Liveness.EmptyBatchBlocksForever | contracts/prism_hub/src/unbond.rs:299-300 | after any run every withdrawal that reaches a batch closed without tokens fails, and neither it nor a later batch is ever released or paid |
| RoundTrips.RoundTripGain | contracts/prism_hub/src/bond.rs:58-77 | bonding and at once unbonding gains at most the payment's part of what the truncated rate understates the backing |
| RoundTrips.NoGain | contracts/prism_hub/src/bond.rs:58-77 | no round trip is worth more than the payment unless the bonded coins exceed the tokens, at one atomic more than the truncated rate, by a whole coin |
| RoundTrips.GainingTrip | contracts/prism_hub/src/bond.rs:58-77 | if they do, bonding a payment of the truncated rate and unbonding the 10^18 tokens it mints goes through and is worth more than the payment |
| RoundTrips.ProfitableIff | contracts/prism_hub/src/bond.rs:58-77 | so some round trip pays exactly under that condition |
| RoundTrips.FreshGain | contracts/prism_hub/src/math.rs:4-10 | at a freshly computed rate the gain is at most 10^-9 of the payment over the truncated rate |
| Liveness.EarlyCoinsAreAbsorbed | contracts/prism_hub/src/unbond.rs:218-219 | after any successful withdrawal nothing counts as arrived, although no batch may have been released |
| HubContract.Hub.UpdateExchangeRate | packages/prism-protocol/src/hub.rs:58-65 | assigns the recomputed rate to the field, or aborts as the function does |
| HubContract.Hub.Slashing | contracts/prism_hub/src/contract.rs:303-338 | the summing loop and update compute the slashing step |
| HubSteps.BondsItsCoin | contracts/prism_hub/src/bond.rs:34-47 | a bond goes through only with exactly one coin attached, some of the staking coin, and bonds all of it |
| HubTypes.FirstPaidIs | contracts/prism_hub/src/bond.rs:41-47 | the payment is the first attached coin of the denomination that is not empty |
| HubContract.Hub.ExecuteBond | contracts/prism_hub/src/bond.rs:11-115 | for any attached coins, storage and messages are those of the bond call |
| HubContract.Hub.ExecuteUpdateExchangeRate | contracts/prism_hub/src/autho_compounding.rs:14-110 | storage and messages are those of the reward step |
| HubContract.Hub.StoreUnbondWaitList | contracts/prism_hub/src/state.rs:24-39 | one ticket is increased and no other changes |
| HubContract.Hub.PickValidator | contracts/prism_hub/src/unbond.rs:318-365 | the loop over the shrinking list emits the messages of the allocator |
| HubContract.Hub.ExecuteUnbond | contracts/prism_hub/src/unbond.rs:17-144 | storage and messages are those of the unbond step |
| HubContract.Hub.AddUp | contracts/prism_hub/src/unbond.rs:224-247 | the first pass finds the total promised and the number of batches of the window |
| HubContract.Hub.ShareOut | contracts/prism_hub/src/unbond.rs:255-309 | the second pass, though it rewrites the map it scans, stops where the first did and releases exactly that window |
| HubContract.Hub.ProcessWithdrawRate | contracts/prism_hub/src/unbond.rs:208-316 | the two passes together compute the release step |
| HubContract.Hub.GetFinishedAmount | contracts/prism_hub/src/state.rs:111-130 | the sum of the user's payable tickets at their worth, whatever the iteration order, or overflow |
| HubContract.Hub.GetUnbondBatches | contracts/prism_hub/src/state.rs:86-105 | exactly the released batches the user has tickets for |
| HubContract.Hub.RemoveUnbondWaitList | contracts/prism_hub/src/state.rs:42-55 | exactly the user's tickets of the given batches are removed |
| HubContract.Hub.ExecuteWithdrawUnbonded | contracts/prism_hub/src/unbond.rs:146-204 | storage and messages are those of the withdrawal step |
| HubContract.Hub.SetPaused | contracts/prism_hub/src/contract.rs:135-146 | only the admin changes the pause flag |
| HubContract.Hub.Execute | contracts/prism_hub/src/contract.rs:147-178 | a paused hub refuses every call; otherwise the call performs its step, and a failed one leaves the storage as it was |
| Decimal256.RoundTrip | packages/bignumber/src/math.rs:76-132 | every 256-bit decimal is read back from its printed form without overflow |
| Decimal256.PrintedInjective | packages/bignumber/src/math.rs:114-132 | different decimals print differently |
| PrintedForm.PrintedIs | packages/bignumber/src/math.rs:114-132 | the printed form is the whole part without leading zeros and, for a fraction, a dot and at most 18 digits that do not end in a zero |
| PrintedForm.DotIff | packages/bignumber/src/math.rs:114-132 | a dot is printed exactly for a decimal with a fraction |
| PrintedForm.PrintedIsShortest | packages/bignumber/src/math.rs:76-132 | no shorter string with a whole part parses to the same decimal |
| Decimal256.FromStrFraction | packages/bignumber/src/math.rs:95-107 | digits, a dot and at most 18 digits parse to their exact value |
| Decimal256.FromStrMeans | packages/bignumber/src/math.rs:85-111 | whatever parses is of that form or plain digits, and the result is its exact value: nothing is rounded |
| Decimal256.EmptyWholeParses | packages/bignumber/src/math.rs:76-85 | the empty string and a missing whole part are accepted |
| Decimal256.Formatter.Fmt | packages/bignumber/src/math.rs:114-132 | appends exactly the printed form to the formatter |
| HistoryPages.BigEndianOrder | contracts/prism_hub/src/state.rs:205-214 | keys order as their ids and are equal only for equal ids |
| HistoryPages.BoundAdmits | contracts/prism_hub/src/state.rs:252-258 | the key followed by a byte 1 is a lower bound for exactly the greater ids |
| HistoryPages.IterationIs | contracts/prism_hub/src/state.rs:241-243 | the store iterates exactly the ids after the start, in increasing order |
| HistoryPages.AllUnbondHistory | contracts/prism_hub/src/state.rs:227-250 | a page holds the entries of the lowest ids after the start, at most the limit or 10, never more than 100 |
| HistoryPages.ChainedIsEverything | contracts/prism_hub/src/state.rs:233-258 | chaining non-empty pages by last id lists every later batch once, in order |
| HubPages.ChainedHub | contracts/prism_hub/src/state.rs:233-258 | for the hub's books the chain lists batches 1 up to the last closed one |

## Left out

- Administration: configuration, parameter updates, the validator whitelist and migration. Parameters are arbitrary per call, so every theorem holds under any updates.
- Attached coins: runs attach the staking coin only; calls with other coins are modelled in `HubSteps.BondCall` and class `Hub`, and all delegations are in the staking coin.
- Permissions: of the caller checks only those on the rewards contract and on pausing are modelled; token transfers into the hub before an unbond are taken as done.
- Token contract and staking module: not part of this repository; the token accepts every mint, and burns up to its supply; the chain refuses an undelegation it does not hold and a transfer it cannot pay.
- The random generator is replaced by arbitrary draws, of which any value in range can come up.
- Batch ids are unbounded in the hub (they grow by one per epoch); the history pages assume they fit 64 bits.
- `UpdateGlobalIndex` and the rewards contract only forward rewards; a reward is an amount handed to the hub.
- The withdrawable-amount query uses rates before the release and a strict time comparison; it does not bound what can be withdrawn.
- Storage encodings, address conversion and message encoding, except the big-endian history keys.
- Limb arithmetic of 256-bit integers is replaced by natural numbers below 2^256; other operators of the decimal type are not modelled.
- HubContract.Hub.Execute: of the administrative messages only pausing is modelled; runs contain the calls of a hub that is not paused, as a paused one refuses them all.
- Runs.SolvencyOverRuns: assumes moderate releases for which something arrived; outside that, `Accounts.SolventInTotal` needs the totals of the run, and flooring user by user can leave an over-credited release solvent.
- Liveness.RequestSucceedsIff: assumes token totals that fit 128 bits, as do `Liveness.UnbondSucceedsIff`, `Liveness.UnbondCannotGetStuck` and `Liveness.BondSucceedsIff`.
- RoundTrips.GainingTrip: assumes a listed validator, a threshold at which no fee is due, and amounts with room for one more payment.
- RoundTrips.RoundTripGain: values the request at the rate right after the unbond; what happens to the batch afterwards is the business of the other theorems.
- Guarantees.FromInstantiation: assumes the token supply at instantiation is at most the deposit, which the code does not check.
