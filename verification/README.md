# Revenue distribution, modelled and proved in Dafny

The revenue distribution program collects SOL debt from validators, has it exchanged for 2Z and pays
that 2Z to contributors, one distribution per epoch. This project models its accounts and
instructions and proves what holds in every run: ledgers that span all accounts agree, three bitmaps
packed into one growing buffer never disturb each other, no Merkle leaf is processed twice, rewards
split without losing or making a token, and the community burn rate follows its closed form.

## How it is built

* `Units`, `Sums`, `Bitmaps` — machine integers and fixed-point shares, sums over maps, leaf bitmaps.
* `BurnRates`, `Rewards` — the community burn rate, and reward shares with their recipients.
* `Accounts`, `Distributions` — account data as values; per instruction, when it succeeds on a
  distribution account and what it leaves there.
* `AccountObjects`, `Processor` — the same instructions in the source's own form: account objects
  changed in place, in the source's order, with checks after changes where the source has them there,
  proved to succeed exactly when the value-level guard holds and to leave exactly the value-level result.
* `World` — all accounts together, every instruction as a step, runs of any length.
* `Frames` — which accounts each instruction touches.
* `DistributionInvariants`, `WorldInvariants`, `Runs` — the invariant of one distribution, of the
  world, and of runs; `Structure` — what holds of the bitmaps even in runs whose additions do not fit.
* `Histories`, `LeafHistories`, `JournalFlows`, `DepositFlows` — the accounts as books: every balance,
  counter, sum and bit is the total of what the instructions of the run did, read off their arguments.
* `Guards` — exactly when each instruction succeeds in a reachable world; `RewardAnswers`, `Timing` —
  what a reward does, and what has to wait for what.
* `RunTheorems`, `LedgerTheorems`, `DebtTheorems`, `PoolTheorems`, `BurnRateRuns`, `HonestRuns` — what follows for every world that can be reached, and for honest runs.
* `Example` — runs from genesis: one whole epoch to the last reward, and the worlds in which the program
  does not do what it promises.

## What is assumed

* A failed instruction changes nothing: the runtime rolls it back.
* A Merkle root is the binding commitment it stands for, so it determines at most one leaf per index,
  and nothing is committed under the all-zero root. Whether a committed list is *honest* (length as
  configured, amounts adding up to the configured debt, shares adding up to at most one) is never
  assumed in the invariant; lemmas that need it say `HonestDebt` or `HonestRewards`.
* An instruction carries the accounts and signatures it asks for.
* The swap program answers with arbitrary amounts. That it returns no more 2Z than the journal has
  recorded is a condition of a run, not of the model.
* A registered integration's program, when called to collect, only deposits 2Z: any amount, but it takes
  none. The call carries the distribution's signature together with its writable 2Z account, so the
  program could spend from the pool; everything said about the pool and the 2Z in a distribution's
  account (`RunTheorems.PoolSolvent` first of all) rests on registered programs not doing so.
* Plain `+=` and `-=` on 64 and 128 bits are unchecked in a release build, so they wrap in the model.
  `StepFits` lists the additions and the subtraction this concerns. It is exact: from a world in
  order, a step leads to a world in order if and only if it fits (`Runs.StepKeepsInvExactly`). Under
  honest roots and a debt of all epochs together below 2^64, a step fits exactly if the swap program
  returns no more 2Z than is recorded and the 128-bit counter of swapped 2Z does not overflow
  (`HonestRuns.HonestStepFitsExactly`); nothing else is left to chance in a run
  (`HonestRuns.HonestRunFits`).
* Rent is 6960 lamports per byte and 128 bytes of overhead; one instruction grows an account by at most
  10240 bytes. Lamports and 2Z in existence stay below 2^64.
* Time and epochs: each new distribution needs at least a minute and timestamps fit 32 bits, from which
  it is proved that the epoch counter never saturates.

## What turned out false

* A write-off can wrap in two places. The charge to a distribution is added first and only then compared
  with the total debt, so a sum past 2^64 passes; and the debt entered at the validator's deposit
  (`written_off_sol_debt += amount`) is not compared with anything. `Example.ChargeCanWrap` and
  `Example.DepositCanWrap` are runs from genesis in which the one and the other wraps and the double
  entry is lost. The exact condition is `WriteOffFits`, both sums below 2^64: by
  `Runs.StepKeepsInvExactly` a write-off keeps the double entry if and only if it holds.
* Enabling write-off after the rewards are final counts the relayers' reserve toward the rent for the
  new bitmap. `Example.LateEnablingTakesReserve` is a run from genesis that loses the reserve this way;
  `LedgerTheorems.LateEnablingExactly` says when the reserve survives that step and every run after it.
* A withdrawal from a deposit leaves the rent and the written-off debt unless the beneficiary is the
  deposit itself: then the lamports come back and nothing changes
  (`DepositFlows.WithdrawalLeavesWrittenOff`; `Example.WithdrawalToItself` is such a run).
* The account list in the comment of the write-off instruction leaves out the deposit account that the
  code reads between the two distributions; the model follows the code.

## Model

| member | source | states |
|---|---|---|
| Units.MulScalar | programs/revenue-distribution/src/types.rs:92-104 | the scaled product is the floor of share times amount, never above the amount; the 128-bit product does not saturate and the conversion back does not panic |
| Bitmaps.CanMarkIsFreshLeaf | programs/revenue-distribution/src/processor.rs:3290-3319 | a leaf is accepted exactly when it has a bit in the slice and is not in the set the slice stands for |
| Bitmaps.MarkAddsLeaf | programs/revenue-distribution/src/processor.rs:3321-3326 | setting the bit adds that one leaf to the set of its slice |
| Bitmaps.MarkKeepsOthers | programs/revenue-distribution/src/processor.rs:3321-3326 | the set of any slice that shares no byte is unchanged |
| BurnRates.CommunityBurnRateParameters.New | programs/revenue-distribution/src/state/program_config/community_burn_rate.rs:48-74 | parameters exist exactly for a nonzero rate not above the limit and ordered nonzero counts |
| BurnRates.CommunityBurnRateParameters.CheckedCompute | programs/revenue-distribution/src/state/program_config/community_burn_rate.rs:104-145 | one computation in place yields the rate cached before and refines the functional step, failures included |
| BurnRates.CommunityBurnRateParameters.CheckedUpdate | programs/revenue-distribution/src/state/program_config/community_burn_rate.rs:151-186 | an update succeeds exactly when allowed, otherwise it changes nothing |
| BurnRates.ProductStaysBelow | programs/revenue-distribution/src/state/program_config/community_burn_rate.rs:129-133 | the product neither saturates nor overflows, and dividing it back adds one whole increment |
| BurnRates.ComputeSucceeds | programs/revenue-distribution/src/state/program_config/community_burn_rate.rs:104-145 | well-formed parameters fail only for an unset rate, never divide by zero, and the clamp to the limit never binds |
| BurnRates.ComputeKeeps | programs/revenue-distribution/src/state/program_config/community_burn_rate.rs:104-145 | a computation keeps the parameters well-formed, never lowers the rate, never passes the limit |
| BurnRates.UpdateKeeps | programs/revenue-distribution/src/state/program_config/community_burn_rate.rs:151-186 | an update establishes well-formedness and keeps the cached rate |
| BurnRates.BurnRateClosedForm | programs/revenue-distribution/src/state/program_config/community_burn_rate.rs:89-186 | after an update every computation succeeds and the rate and mode after the k-th are given in closed form for every k |
| Rewards.PackingRoundTrip | programs/revenue-distribution/src/types.rs:200-251 | flag, burn rate and unit share packed into a leaf are read back unchanged |
| Rewards.NewRecipientShares | programs/revenue-distribution/src/state/contributor_rewards/recipient_shares.rs:20-56 | a list is accepted exactly when it has at most 8 named recipients with positive shares that make 100% |
| Rewards.PaddedIsActive | programs/revenue-distribution/src/state/contributor_rewards/recipient_shares.rs:65-69 | the active entries of an accepted list are that list, in order |
| Rewards.SumToOne | programs/revenue-distribution/src/processor.rs:1446-1456 | an owner of a single share receives exactly that share's part |
| Rewards.ReceivingAt | programs/revenue-distribution/src/processor.rs:1446-1456 | every recipient's record grows by the parts under its key |
| Rewards.ReceivingTotal | programs/revenue-distribution/src/processor.rs:1446-1447 | all records together grow by all that is transferred |
| Rewards.TransferredTight | programs/revenue-distribution/src/processor.rs:1422-1477 | the transfers never exceed the amount and fall short of it by less than one unit per recipient |
| Rewards.RewardSplitsExactly | programs/revenue-distribution/src/state/distribution.rs:231-248 | transfers plus burn are exactly the contributor's share; the burn is at least the rate's part and at most 7 above it |
| AccountObjects.TryProcessRemainingDataLeafIndex | programs/revenue-distribution/src/processor.rs:3290-3327 | the bit is set in place exactly when the leaf is fresh and in range; otherwise no byte changes |
| AccountObjects.TryCreateAccount | crates/program-tools/src/recipe/create_account.rs:16-156 | on both branches the new account ends with the greater of what it held and what is asked, at the payer's expense |
| Processor.TryConfigureProgram | programs/revenue-distribution/src/processor.rs:283-593 | every other setting is checked against its own bounds and changes its own field and nothing else |
| Processor.TryConfigureCommunityBurnRate | programs/revenue-distribution/src/processor.rs:427-518 | first parameters are taken only before any epoch; an update keeps the cached rate; both refine the settings step |
| Processor.TryConfigureDistributionDebt | programs/revenue-distribution/src/processor.rs:956-1004 | sets count, debt and root exactly when allowed and nothing else |
| Processor.TryConfigureDistributionRewards | programs/revenue-distribution/src/processor.rs:1095-1136 | sets count and root exactly when allowed and nothing else |
| Processor.TrySetDistributionEconomicBurnRate | programs/revenue-distribution/src/processor.rs:2884-2928 | sets a valid rate exactly before the rewards are final |
| Processor.TryConfigureContributorRewards | programs/revenue-distribution/src/processor.rs:1610-1671 | the recipients are replaced as a whole exactly for an acceptable list |
| Processor.TryInitializeDistribution | programs/revenue-distribution/src/processor.rs:690-954 | succeeds exactly when allowed and leaves the new distribution, the counted-up epoch and the computed rate; prepaid 2Z moves over |
| Processor.TryFinalizeDistributionDebt | programs/revenue-distribution/src/processor.rs:1006-1093 | finalizing debt in place: exact success condition, appended bitmap, rent topped up by the payer |
| Processor.TryEnableSolanaValidatorDebtWriteOff | programs/revenue-distribution/src/processor.rs:2138-2236 | enabling write-off in place: exact success condition, appended bitmap, rent topped up by the payer |
| Processor.TryFinalizeDistributionRewards | programs/revenue-distribution/src/processor.rs:1138-1273 | finalizing rewards in place: exact success condition with the null-root guard, appended bitmap, relay funds |
| Processor.TryPaySolanaValidatorDebt | programs/revenue-distribution/src/processor.rs:2032-2136 | paying in place succeeds exactly when the step does and leaves all three accounts, and nothing else, as the step does; the committed leaf names the paying deposit's own validator and the amount that moves |
| Processor.TryWriteOffSolanaValidatorDebt | programs/revenue-distribution/src/processor.rs:2238-2416 | the same for a write-off, also when source and target are one account; the deposit could not have paid |
| Processor.TryMarkWrittenOff | programs/revenue-distribution/src/processor.rs:2295-2348 | both bits of the leaf are set exactly when both are clear and the proof is right |
| Processor.TryCharge | programs/revenue-distribution/src/processor.rs:2356-2407 | the target is charged exactly when it is not earlier, not swept, final, and the (wrapping) sum stays within its debt |
| Processor.TrySweepDistributionTokens | programs/revenue-distribution/src/processor.rs:2495-2732 | the sweep in place succeeds exactly when the step does and leaves the same world |
| Processor.TryWithdrawSol | programs/revenue-distribution/src/processor.rs:2734-2882 | the withdrawal in place refines the step for any destination, the journal itself included |
| Processor.TryInitializeSolanaValidatorDeposit | programs/revenue-distribution/src/processor.rs:1736-1802 | the new deposit holds its rent plus every lamport sent there before |
| Processor.TryWithdrawSolanaValidatorDeposit | programs/revenue-distribution/src/processor.rs:2930-3011 | what is left is the rent plus the written-off debt; a deposit that is its own beneficiary keeps everything |
| Processor.TryCollectIntegrationRewards | programs/revenue-distribution/src/processor.rs:1895-2030 | collecting in place: exact success condition; all that arrives enters the pool, and the integration's own bit is set |
| Processor.TransferShares | programs/revenue-distribution/src/processor.rs:1416-1467 | every token account gains the sum of the parts it serves, one that serves a single recipient exactly that recipient's part, and the loop totals them |
| Processor.TryBurnAndRelay | programs/revenue-distribution/src/processor.rs:1479-1506 | counters, burn and relayer payment: exact success condition and amounts |
| Processor.TryPayReward | programs/revenue-distribution/src/processor.rs:1402-1506 | what leaves the pool is exactly the contributor's share, each recipient's account gains its part, the rest is burned, and the relayer, possibly the distribution itself, is paid |
| Processor.TryDistributeRewards | programs/revenue-distribution/src/processor.rs:1275-1509 | distributing in place succeeds exactly when the guard holds, refines the functional step, and every recipient's account gains its part |
| DistributionInvariants.RangesDisjoint | programs/revenue-distribution/src/state/distribution.rs:262-276 | in every allocation order the three ranges are in bounds and share no byte |
| DistributionInvariants.ConfigureDebtKeeps | programs/revenue-distribution/src/processor.rs:956-1004 | configuring debt before it is final keeps the invariant and every global ledger entry |
| DistributionInvariants.FinalizeDebtKeeps | programs/revenue-distribution/src/processor.rs:1035-1067 | finalizing debt allocates the first bitmap and keeps the invariant |
| DistributionInvariants.EnableWriteOffSets | programs/revenue-distribution/src/processor.rs:2189-2210 | allocating the write-off bitmap, before or after the rewards bitmap, leaves all three leaf sets as they were |
| DistributionInvariants.EnableWriteOffKeeps | programs/revenue-distribution/src/processor.rs:2138-2236 | enabling write-off keeps the invariant in either order |
| DistributionInvariants.FinalizeRewardsSets | programs/revenue-distribution/src/processor.rs:1214-1238 | allocating the rewards bitmap, before or after the write-off bitmap, leaves all three leaf sets as they were |
| DistributionInvariants.FinalizeRewardsKeeps | programs/revenue-distribution/src/processor.rs:1138-1273 | finalizing rewards keeps the invariant and funds every relayer |
| DistributionInvariants.PaySets | programs/revenue-distribution/src/processor.rs:2078-2088 | a payment adds one fresh leaf to the processed set and leaves the other two sets alone |
| DistributionInvariants.WriteOffSets | programs/revenue-distribution/src/processor.rs:2305-2335 | a write-off adds one leaf, fresh in both, to the processed and the written-off set |
| DistributionInvariants.RewardSets | programs/revenue-distribution/src/processor.rs:1336-1347 | a reward adds one fresh leaf to the rewarded set |
| DistributionInvariants.CountersSmall | programs/revenue-distribution/src/processor.rs:2069 | no bitmap holds more leaves than one allocation has bits, so the 32-bit counters never wrap |
| DistributionInvariants.PayKeeps | programs/revenue-distribution/src/processor.rs:2066-2105 | a payment that fits keeps counters equal to set sizes and collected payments equal to the paid leaves' amounts |
| DistributionInvariants.WriteOffKeeps | programs/revenue-distribution/src/processor.rs:2303-2348 | the source of a write-off keeps the invariant and its written-off leaves' sum grows by the leaf's amount |
| DistributionInvariants.ChargeKeeps | programs/revenue-distribution/src/processor.rs:2398-2407 | the target of a write-off keeps the invariant; a null rewards root admits only charges of zero |
| DistributionInvariants.CollectKeeps | programs/revenue-distribution/src/processor.rs:2001-2021 | a collection keeps the invariant; the pool only grows before the gate opens |
| DistributionInvariants.SweepKeeps | programs/revenue-distribution/src/processor.rs:2523-2560 | a sweep keeps the invariant and fixes the converted amount |
| DistributionInvariants.RewardKeeps | programs/revenue-distribution/src/processor.rs:1407-1501 | a reward that fits keeps the pool ledger, the counter and the relayers' reserve |
| WorldInvariants.NewDistributionStep | programs/revenue-distribution/src/processor.rs:690-954 | a new distribution keeps every ledger, the epoch order and the burn rate order |
| WorldInvariants.EpochsFit | programs/revenue-distribution/src/processor.rs:728-803 | a minute passes per epoch, so the epoch counter never saturates |
| WorldInvariants.PayStep | programs/revenue-distribution/src/processor.rs:2066-2129 | a payment moves lamports from deposit to journal and keeps all ledgers |
| WorldInvariants.OneForward | programs/revenue-distribution/src/processor.rs:2360-2398 | charging the source's epoch or a later one keeps every prefix of epochs in order |
| WorldInvariants.WriteOffStep | programs/revenue-distribution/src/processor.rs:2264-2415 | a write-off that fits keeps the double entry and all other ledgers, also for one aliased account |
| WorldInvariants.SweepStep | programs/revenue-distribution/src/processor.rs:2523-2729 | a sweep keeps SOL and swap ledger when no more 2Z is returned than is tracked |
| WorldInvariants.WithdrawSolStep | programs/revenue-distribution/src/processor.rs:2842-2879 | a SOL withdrawal that fits keeps SOL and swap ledger and the journal covered |
| WorldInvariants.WithdrawDepositStep | programs/revenue-distribution/src/processor.rs:2984-3008 | a deposit withdrawal to any beneficiary keeps all ledgers |
| WorldInvariants.RegistryGrows | programs/revenue-distribution/src/processor.rs:1882-1890 | registration indices stay a bijection onto the numbers below the count |
| WorldInvariants.RewardStep | programs/revenue-distribution/src/processor.rs:1275-1509 | a reward that fits keeps all ledgers, whoever the relayer is |
| WorldInvariants.SettingKeeps | programs/revenue-distribution/src/processor.rs:283-593 | no setting moves the epoch counter, nor the due burn rate once a distribution exists |
| Runs.StepKeepsInv | programs/revenue-distribution/src/processor.rs:57-152 | every instruction that fits keeps the invariant, conserves lamports, makes no 2Z and moves distributions one way |
| Runs.StepKeepsInvExactly | programs/revenue-distribution/src/processor.rs:57-152 | from a world in order, exactly the steps that fit lead to a world in order |
| Runs.GenesisInv | programs/revenue-distribution/src/processor.rs:154-254 | the freshly initialized program is in order |
| Runs.RunKeepsInv | programs/revenue-distribution/src/processor.rs:57-152 | the invariant holds after every run whose steps fit |
| Runs.RunFitsExactly | programs/revenue-distribution/src/processor.rs:57-152 | a run fits exactly when the invariant holds after each of its prefixes |
| RunTheorems.SolLedgerHolds | programs/revenue-distribution/src/processor.rs:2066-2129 | payments collected over all distributions equal SOL in the journal, SOL swapped, and net debt of swept distributions; no more is swept than was collected |
| RunTheorems.SweptDebtFrozen | programs/revenue-distribution/src/processor.rs:2367-2376 | the net debt of a swept distribution never changes again |
| RunTheorems.WithdrawNeverUnderflows | programs/revenue-distribution/src/processor.rs:2842-2879 | what the journal may pay out it holds above its rent |
| RunTheorems.NullRootStrandsNothing | programs/revenue-distribution/src/processor.rs:1170-1189 | rewards final with a null root: in every later world the pool and the net debt are zero, no collection succeeds and a sweep adds nothing |
| RunTheorems.PoolFrozen | programs/revenue-distribution/src/processor.rs:1314-1334 | from the first reward on, pool, root and burn rates never change |
| RunTheorems.PoolSolvent | programs/revenue-distribution/src/processor.rs:1407-1493 | distributed plus burned is exactly the processed leaves' shares, the rest of the pool is in the token account, and under honest rewards it never exceeds the pool |
| RunTheorems.NoDebtSettledTwice | programs/revenue-distribution/src/processor.rs:2078-2088 | once a debt leaf is paid or written off, every later payment or write-off of it fails |
| RunTheorems.NoRewardPaidTwice | programs/revenue-distribution/src/processor.rs:1336-1347 | once a reward leaf is paid, every later attempt fails |
| LedgerTheorems.LifecycleSafe | programs/revenue-distribution/src/processor.rs:2523-2553 | rewarded implies swept implies rewards final implies debt final, and the net debt never underflows |
| LedgerTheorems.FinalStaysFinal | programs/revenue-distribution/src/processor.rs:3226-3265 | finalized roots, totals, rates and ranges never change; flags and bitmaps only grow |
| LedgerTheorems.EpochsInOrder | programs/revenue-distribution/src/processor.rs:2537-2548 | distributions exist for exactly the epochs below one counter and are swept for exactly those below the other, which never passes the first |
| LedgerTheorems.BurnRatesRise | programs/revenue-distribution/src/processor.rs:760-767 | community burn rates never fall from one epoch to a later one and never exceed the limit in force, whatever updates come between |
| BurnRateRuns.NewRate | programs/revenue-distribution/src/processor.rs:760-803 | a new distribution records the rate that was due, and exactly one computation follows |
| BurnRateRuns.SettingUpdates | programs/revenue-distribution/src/processor.rs:427-518 | a setting of the burn rate that succeeds leaves updated parameters from the rate in force or the initial one |
| BurnRateRuns.DistributionsFollowClosedForm | programs/revenue-distribution/src/state/program_config/community_burn_rate.rs:104-186 | in every run from updated parameters that are not set again, the k-th new distribution records the k-th rate of the closed form |
| LedgerTheorems.BitmapsAndCounters | programs/revenue-distribution/src/state/distribution.rs:262-291 | in every reachable world ranges are in bounds and apart, and counters are the sizes of their sets |
| LedgerTheorems.WriteOffDoubleEntry | programs/revenue-distribution/src/processor.rs:2277-2407 | charged debt, deposits' written-off debt and amounts under write-off bits agree; no prefix of epochs is charged more than was written off from it |
| LedgerTheorems.GateIsExact | programs/revenue-distribution/src/state/distribution.rs:195-221 | the count gate is the set gate and never opens for more than 512 integrations |
| LedgerTheorems.IntegrationGate | programs/revenue-distribution/src/processor.rs:1325-1334 | rewards open exactly when every program registered before the distribution has been collected from |
| LedgerTheorems.OneOwner | programs/revenue-distribution/src/processor.rs:1882-1890 | every index below the count belongs to exactly one program |
| LedgerTheorems.SwapLedgerHolds | programs/revenue-distribution/src/state/journal.rs:32-38 | all 2Z ever swapped is tracked at the destination or was swept into distributions, and the destination holds what is tracked |
| LedgerTheorems.SupplyConserved | programs/revenue-distribution/src/processor.rs:57-152 | no run makes or loses a lamport or makes any 2Z |
| Frames.AfterIs | programs/revenue-distribution/src/processor.rs:57-152 | what every instruction leaves in a distribution, lamports aside |
| Frames.Born | programs/revenue-distribution/src/processor.rs:787-803 | only an initialization adds a distribution, and only the next epoch's |
| Structure.StepContinues | programs/revenue-distribution/src/processor.rs:57-152 | in any world an instruction marks exactly the leaf it names, fresh, and changes the root only while nothing is marked |
| Structure.StructureRun | programs/revenue-distribution/src/processor.rs:57-152 | the bitmaps keep their layout in every run, whether or not its additions fit |
| Histories.BooksStep | programs/revenue-distribution/src/processor.rs:57-152 | one step enters in an epoch's books exactly what it moved |
| Histories.BooksAreHistory | programs/revenue-distribution/src/state/distribution.rs:186-193 | since genesis an epoch collected what was paid in it, wrote off what was written off from it, is charged what was written off against it; its pool is all 2Z that left the journal's account at its birth and the swap destination at its sweep and all it collected; the rest of its tokens are gifts |
| LeafHistories.MarksAreHistory | programs/revenue-distribution/src/processor.rs:3313-3324 | in every run, fitting or not, a debt leaf was settled, and a reward leaf paid, once if its bit is set and never if it is clear |
| LeafHistories.CollectionsAreHistory | programs/revenue-distribution/src/processor.rs:1945-1960 | in every run an integration was collected from once if its bit is set and never if it is clear |
| LeafHistories.ValidatorsPayTheirOwn | programs/revenue-distribution/src/processor.rs:2090-2105 | in every run, fitting or not, what a validator's deposit paid is exactly the amounts of its own paid leaves over all distributions, and so for what was written off for it |
| LeafHistories.DepositsOweTheirOwn | programs/revenue-distribution/src/processor.rs:2277-2278 | in runs that fit the written-off debt a deposit records is exactly its own written-off leaves' amounts |
| JournalFlows.FlowsAreHistory | programs/revenue-distribution/src/processor.rs:2126-2129 | since genesis SOL waiting, SOL swapped, lifetime 2Z, 2Z given to the swap destination and the journal's lamports are the totals of what the run moved |
| RewardAnswers.RewardedLeaf | programs/revenue-distribution/src/processor.rs:1353-1372 | a reward is paid only for the claimant's own committed, unblocked leaf with the claimed share and rate |
| RewardAnswers.RewardAnswer | programs/revenue-distribution/src/state/distribution.rs:224-248 | every successful reward takes out the greatest of the claim's, the epoch's and the community's rate, gives each recipient its part of the rest, and burns the dust with the former |
| RewardAnswers.RelayerPaid | programs/revenue-distribution/src/processor.rs:1496-1501 | the relayer's lamports leave the distribution, unless the relayer is the distribution |
| RewardAnswers.ReceivedIsDistributed | programs/revenue-distribution/src/processor.rs:1446-1479 | all that recipients ever received is all that the distributions distributed |
| Guards.PayExactly | programs/revenue-distribution/src/processor.rs:2032-2120 | a payment succeeds exactly for an open leaf of the paying validator that its balance covers |
| Guards.WriteOffExactly | programs/revenue-distribution/src/processor.rs:2283-2407 | a write-off succeeds exactly for an open leaf that the validator's balance does not cover, charged to the same or a later unswept, final epoch within its debt |
| Guards.PaidOrWrittenOff | programs/revenue-distribution/src/processor.rs:2283-2293 | of one debt in one world at most one of payment and write-off is possible, and the balance decides which |
| Guards.RewardExactly | programs/revenue-distribution/src/processor.rs:1314-1372 | a reward succeeds exactly for an open leaf of the claimant in a swept, collected distribution that holds its share and the relay lamports |
| Guards.ConfigureDebtExactly | programs/revenue-distribution/src/processor.rs:986-992 | debt can be set exactly when due, not final, and with fees set |
| Guards.ConfigureRewardsExactly | programs/revenue-distribution/src/processor.rs:1126-1127 | rewards can be set exactly when due and not final |
| Guards.SetEconomicBurnRateExactly | programs/revenue-distribution/src/processor.rs:2890-2921 | a valid rate can be set exactly before the rewards are final |
| Guards.FinalizeDebtExactly | programs/revenue-distribution/src/processor.rs:1033-1084 | debt becomes final exactly when due, not final and its bitmap can be allocated and paid; the net debt never underflows |
| Guards.EnableWriteOffExactly | programs/revenue-distribution/src/processor.rs:2155-2227 | write-off is enabled exactly once, after the debt is final and the feature active |
| Guards.FinalizeRewardsExactly | programs/revenue-distribution/src/processor.rs:1160-1264 | rewards become final exactly when due, after the debt and enough newer epochs, with a root unless nothing is owed |
| Guards.SweepExactly | programs/revenue-distribution/src/processor.rs:2523-2654 | a sweep succeeds exactly in order, after final rewards, with enough SOL swapped and the swap program's exact answer |
| Guards.CollectExactly | programs/revenue-distribution/src/processor.rs:1918-2012 | a collection succeeds exactly for a snapshot integration below 512 not collected yet; neither sum overflows |
| Guards.WithdrawSolExactly | programs/revenue-distribution/src/processor.rs:2756-2846 | SOL can be withdrawn exactly up to what is recorded |
| Guards.WithdrawDepositExactly | programs/revenue-distribution/src/processor.rs:2988-3005 | a deposit can be withdrawn from exactly when it holds more than rent and written-off debt |
| Guards.InitializeDistributionExactly | programs/revenue-distribution/src/processor.rs:713-885 | an epoch begins exactly after the grace period with every parameter set; the rate is always computed |
| Guards.InitializeIntegrationExactly | programs/revenue-distribution/src/processor.rs:1858-1890 | a program registers exactly once and below the 16-bit limit |
| Guards.InitializeDepositExactly | programs/revenue-distribution/src/processor.rs:1771-1794 | a deposit is created exactly once, at the cost of its rent on top of what is there |
| Guards.PausedMovesNothing | programs/revenue-distribution/src/processor.rs:3216-3223 | while paused only configuration, creation and plain transfers succeed |
| Timing.BornWith | programs/revenue-distribution/src/processor.rs:865-947 | what a new distribution records of configuration, journal and clock |
| Timing.CalculationWaits | programs/revenue-distribution/src/processor.rs:877-883 | in every run nobody sets or finalizes an epoch's debt or rewards before the grace period that began with it is over |
| Timing.EpochsAreSpaced | programs/revenue-distribution/src/processor.rs:726-744 | two epochs begin at least the grace period apart, in every run |
| Timing.NothingWrittenOffBefore | programs/revenue-distribution/src/state/program_config/mod.rs:209-213 | until the feature is configured no lamport is written off or charged anywhere |
| HonestRuns.HonestStepFits | programs/revenue-distribution/src/processor.rs:2066-2069 | under honest roots no payment and no reward can wrap |
| HonestRuns.HonestWriteOffFits | programs/revenue-distribution/src/processor.rs:2277-2398 | under honest roots and debts that fit 64 bits together, neither addition of any possible write-off wraps |
| HonestRuns.HonestWithdrawalFits | programs/revenue-distribution/src/processor.rs:2842-2853 | under the same condition no possible withdrawal wraps the swapped SOL |
| HonestRuns.HonestStepFitsExactly | programs/revenue-distribution/src/processor.rs:2725-2863 | then a step fits exactly when the swap program returns no more 2Z than recorded and the 128-bit counter holds |
| HonestRuns.HonestRunFits | programs/revenue-distribution/src/processor.rs:57-152 | an honest run fits, so every world it reaches is reachable in the sense of all theorems |
| HonestRuns.ClaimExactly | programs/revenue-distribution/src/processor.rs:1314-1372 | a committed leaf of a swept, collected, reserved and honest distribution passes every guard exactly while it is unmarked |
| HonestRuns.HonestClaimSucceeds | programs/revenue-distribution/src/processor.rs:1275-1509 | in every reachable world a contributor with recipients is paid for a committed leaf of such a distribution if and only if it was not paid before |
| LedgerTheorems.RelayersCovered | programs/revenue-distribution/src/processor.rs:1240-1262 | unless write-off was enabled late, the account holds rent plus the lamports of every relayer still to come |
| LedgerTheorems.EarlyIsNeverLate | programs/revenue-distribution/src/processor.rs:2195-2201 | write-off enabled before the rewards are final never endangers the reserve later |
| LedgerTheorems.LateReserveExactly | programs/revenue-distribution/src/processor.rs:2212-2215 | enabled late, the reserve survives the step exactly if nobody is left to pay or the new rent was already there on top of it |
| LedgerTheorems.LateEnablingExactly | programs/revenue-distribution/src/processor.rs:2138-2236 | under exactly that condition it survives every run after the step |
| DebtTheorems.DebtPartition | programs/revenue-distribution/src/processor.rs:2066-2105 | under an honest root collected, written-off and unprocessed amounts add up to the total debt |
| DebtTheorems.HonestPaymentFits | programs/revenue-distribution/src/processor.rs:2068 | under an honest root payments never exceed the total debt, so the addition cannot wrap |
| DebtTheorems.AllProcessedExactly | programs/revenue-distribution/src/state/distribution.rs:279-284 | the count says all debt is processed exactly when every committed leaf is |
| PoolTheorems.SharesScaled | programs/revenue-distribution/src/types.rs:92-104 | the leaves' floored shares of a pool differ from their exact sum by less than one unit per leaf |
| PoolTheorems.NextRewardCovered | programs/revenue-distribution/src/processor.rs:1407-1493 | under honest rewards the token account covers every reward still to come |
| PoolTheorems.HonestRewardFits | programs/revenue-distribution/src/processor.rs:1479-1480 | under honest rewards the additions cannot wrap |
| PoolTheorems.AllRewardedExactly | programs/revenue-distribution/src/state/distribution.rs:287-291 | the count says all rewards are distributed exactly when every committed leaf is |
| PoolTheorems.ResidueIsSmall | programs/revenue-distribution/src/processor.rs:1475-1481 | when shares make exactly one and all are done, less than one unit per contributor is left |
| DepositFlows.CreationKeepsPrefunding | programs/revenue-distribution/src/processor.rs:1771-1794 | a new deposit's balance above rent is what was there before |
| DepositFlows.StepBalance | programs/revenue-distribution/src/processor.rs:2110-2127 | every instruction changes a deposit's balance by what arrives, is paid and is withdrawn, and nothing else |
| DepositFlows.DepositConserved | programs/revenue-distribution/src/processor.rs:2988-3008 | since genesis, lamports received equal debt paid plus withdrawn plus what is above rent, which is never negative |
| DepositFlows.WithdrawalLeavesWrittenOff | programs/revenue-distribution/src/processor.rs:2995-3008 | a withdrawal leaves exactly rent and written-off debt if and only if the beneficiary is not the deposit itself |
| Example.WholeEpoch | programs/revenue-distribution/src/processor.rs:57-152 | from genesis a run of fitting steps reaches a distribution with all debt paid, its pool swept and all rewards distributed |
| Example.ChargeCanWrap | programs/revenue-distribution/src/processor.rs:2398-2407 | a reachable world in which a write-off of 2 succeeds and takes the uncollectible debt from 2^64 - 1 to 1 |
| Example.DepositCanWrap | programs/revenue-distribution/src/processor.rs:2277-2278 | a reachable world in which a write-off of 200 fits its distribution and takes the deposit from 2^64 - 1 to 199 |
| Example.LateEnablingTakesReserve | programs/revenue-distribution/src/processor.rs:2212-2215 | a reachable world in which enabling write-off succeeds and takes the relayers' reserve |
| Example.WithdrawalToItself | programs/revenue-distribution/src/processor.rs:3007-3008 | a reachable world in which a withdrawal succeeds and leaves everything in the deposit |

## Left out

- Runs.StepKeepsInv: does not cover the migration entry of the dispatch, which overwrites snapshots (the gate and null-root results hold without it only), nor the two rewards-manager entries, which touch no modelled field.
- Runs.StepKeepsInvExactly: as `Runs.StepKeepsInv`.
- Runs.RunKeepsInv: as `Runs.StepKeepsInv`.
- Runs.RunFitsExactly: as `Runs.StepKeepsInv`.
- WorldInvariants.SettingKeeps: does not cover the settings of the administrative keys, which are not part of the model.
- Processor.TryConfigureContributorRewards: does not cover the flag that blocks a new rewards manager, the instruction's other setting.
- Processor.TryInitializeDistribution: does not cover the rent the payer adds for the new token account.
- Processor.TryCollectIntegrationRewards: does not cover a called program that spends from the distribution's 2Z account instead of depositing.
- Processor.TryConfigureProgram: does not cover fee percentages above 100%, which the source refuses; fees are valid by their type.
- Processor.TryDistributeRewards: refuses a relayer that is the distribution account itself when the account holds less than the relay lamports, where the source's credit and debit cancel out; with the relayers' reserve in place it always holds them.
- Processor.TryPayReward: as `Processor.TryDistributeRewards`.
- SHA-256, Merkle proof hashing, program-derived addresses, bump seeds and sysvars: commitments and addresses are ideal, the clock is an argument.
- Account-list parsing, owner and signer checks, zero-copy borrowing and logging; the administrative keys they compare. Which error a failing instruction reports is not specified.
- The token and system programs and the sibling-instruction check: atomic balance moves that fail for insufficient funds. The 2Z transfer before a SOL withdrawal is part of that instruction's step.
- The rent of token accounts, of the program configuration, and of contributor and integration accounts: paid from and kept in the lamports outside the model.
- A recipient's token account that is the journal's: its 2Z counts as outside, and reaches the journal's account by a separate transfer step.
- The runtime's own rule that an account must stay rent exempt when it is written: the model lets a relayer be paid as long as the lamports are there, which only admits more runs.
- Flags are booleans and the 512-bit integration bitmap is a set of indices below 512; account reallocation beyond the 32-bit range cannot occur.
- RewardShare.packed is a number with quotients and remainders for the bit masks; the in-place setters of a leaf, which no instruction calls, are not modelled.
- The data of an account object is one record whose fields the methods replace one by one. Integration registration and contributor account creation are modelled on values only: in place they assign arguments after the same guards.
- The rewards manager, the verification instruction that changes nothing, the passport program, the swap program's ring buffer, builders and codecs.
- Recovered and erroneous debt, which the design documents propose and the code does not have.
