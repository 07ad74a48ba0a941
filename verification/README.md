# Verification of the OLAS indexers' core

Dafny models of the parts of the repository whose correctness rests on arithmetic, event order or
bookkeeping across many handlers, with proofs of what those parts promise. `dafny verify dfyconfig.toml`
checks all of it.

| modules | what they model |
|---|---|
| `Powers`, `Decimal`, `DecimalRounding`, `DecimalOrder`, `DecimalArithmetic`, `DecimalDivision`, `DecimalNegative`, `DecimalText` | graph-node's decimal type as the babydegen squid ports it: digit counting, rounding, division, comparison, parsing and printing |
| `BasiusHandlers`, `BasiusBlock`, `BasiusSources`, `BasiusRegistry` | ingestion that restarts its stream when a block registers a new Safe, and makes up for what the stream did not carry of that block |
| `FkStore`, `PearlFlush`, `SharedFlushOrder`, `SharedCache` | the write-back entity caches over a store with foreign keys, one of them with a cycle |
| `Sums`, `SettlementBooks`, `Settlement`, `SettlementProofs`, `SettlementLedger`, `SettlementSquid` | fills, resolutions and redemptions of prediction markets |
| `Staking`, `StakingProofs`, `StakingEpochs`, `StakingLedger`, `StakingSquid` | stakes, checkpoints, claims and unstakes |
| `PearlLedger`, `PearlRows`, `BondQueue`, `MultiSend`, `MultiSendLegs` | token balances of Pearl's safes, attribution of bonds, and the packed legs of a batch |
| `TokenSupply` | holders and supply of a token |
| `SafeLogs` | which Safe logs of a block are handled, and when |
| `SwapBuffer`, `SwapWindow`, `SwapText` | the rotating buffer of recent swaps, what it loses, and the strings the source keeps it in |
| `Wrappers` | optional values and handlers that throw |

## How the models are built

A class of the source is a class here, with the source's fields; each of its methods is proved against
a function of the state before the call, and the theorems are about those functions, over every run.
Two-level maps are one map keyed by class and id; addresses, ids and hashes are injective keys; events
are already decoded. A handler that throws aborts its batch, so runs consist of completed handlers.
Where a query returns rows in no particular order, the proofs hold for every order.

Independent definitions carry the main results: `Decimal.RoundHalfUp` for rounding, `BasiusBlock.BlockSpec`
for a block in graph-node order, `FkStore.Consistent` for the foreign keys, `SharedCache.Plain` for the
store without a cache, `SettlementBooks.Balanced` for the books, `MultiSend.IsPacking` for the format of
packed legs and `SafeLogs.Expected` for the handled logs. For the rows that handlers write, what the events
alone say of them: `BasiusRegistry`, `SettlementLedger`, `StakingLedger`, `PearlRows`, `TokenSupply.Ledger`
and `SwapWindow` define it without the handlers, and prove that any run leaves exactly that.

## Hypotheses

- A stream carries exactly the block's logs that match the address sets it was started with, the node
  answers a request for missing logs with exactly those of the block, and a stream knows the safes the
  database lists when it starts (`BasiusBlock.Carries`, `Answers`, `Covers`).
- Dirty links refer to stored or dirty rows, of classes in the flush order (`PearlFlush.Flushable`,
  `SharedFlushOrder.Flushable`). PostgreSQL checks a foreign key at the end of a statement, so links
  between rows of one class are covered per class and all others per row.
- A log is seen once: bet ids are new (`Settlement.Possible`) and swap ids distinct (`SwapBuffer.DistinctSwaps`);
  where it matters, swaps and associations come in the order of their timestamps (`SwapWindow.InOrder`).
- A Master Safe is tracked as its own, and ServiceRegistryL2 is no Agent Safe (`PearlLedger.PossibleRow`).
- The process-wide set of known multisigs contains every stored row at the start of a block.

## Where the code and its own words differ

- Negative decimals: truncation toward zero keeps 34 or 35 digits, as the bit-length estimate has it. So
  normalization is not idempotent on them (exactly on `DecimalOrder.KeepsDigitTooMany`), equal negative
  values can differ once normalized (exactly when `DecimalNegative.NormalizeIsCanonicalIff` says), the
  comparison called exact can reverse two of them (exactly on `DecimalNegative.Reversed`; an input is in
  `NegativeOrderCounterexample`), and dividing one by one can change it (`DecimalNegative.DivByOneIff`).
- The swap buffer's window is 1200 seconds, but a swap can be rotated out after 900: exactly when each of
  the next three five minutes brings a swap, the fourth brings one inside the window, and no
  association comes between (`SwapWindow.DroppedEarlyIff`; an input is in `SwapBuffer.DroppedBeforeItExpires`).
- A token transfer from one Agent Safe to another, or to itself, debits the sender and credits nobody, so
  an Agent Safe's balance follows its transfers exactly but for those (`PearlLedger.AgentFollowsTransfersIff`;
  a run is in `AgentToAgentIsLost`).
- A token transfer with both ends the zero address raises the token's balance and no holder's: the supply
  adds up after a run exactly when it has none (`TokenSupply.RunIsValidIff`; an input is in `MintToNobody`).
- An unstake on a contract without OLAS rewards checks no service, yet throws exactly for one never
  staked, when its history row is made (`StakingProofs.UnstakeThrowsIff`).
- An unstake returns a service's last stake only, so what it has staked is its last stake exactly when it
  never staked on top of one (`StakingLedger.StakedIsLastStakeIff`).
- The reward an unstake books on a history row is lost when the checkpoint of its epoch comes and does not
  list the service (`StakingEpochs.KeepsRewardIff`; a run is in `UnstakeRewardIsLost`). What Global and
  the service have claimed keeps it.

## Model

| member | source | states |
|---|---|---|
| `Decimal.CountDecimalDigits` | squids/babydegen/src/decimal.ts:32-41 | the digit counting loop is exact for positive integers, is the bit-length estimate for negatives, and ends |
| `Decimal.RoundingTerm` | squids/babydegen/src/decimal.ts:44-53 | the unbounded loop ends and returns 1 exactly when the leading digit is at least 5; the early exit on the bit-length estimate is right |
| `Decimal.EstimateBounds` | squids/babydegen/src/decimal.ts:34-35 | the bit-length estimate e of a positive x has 10^e <= 2x and x < 10^(e+1) |
| `Decimal.ComputeWithPrec` | squids/babydegen/src/decimal.ts:122-139 | cutting or padding to a precision, with truncating division and the rounding rule on the remainder |
| `Decimal.Normalized` | squids/babydegen/src/decimal.ts:142-152 | the normalization loop ends and computes the normal form function the theorems below are about |
| `Decimal.Normalize` | squids/babydegen/src/decimal.ts:142-152 | normalization keeps the sign, and gives zero in one form or a coefficient without trailing zero |
| `DecimalRounding.NormalizeRounds` | squids/babydegen/src/decimal.ts:122-152 | normalizing a positive decimal is rounding its exact value half-up to 34 significant digits |
| `DecimalRounding.RoundingRuleIsHalfUp` | squids/babydegen/src/decimal.ts:129-131 | the leading-digit rule on the remainder decides exactly whether it is at least half of the dropped power of ten |
| `DecimalRounding.RoundScaled` | squids/babydegen/src/decimal.ts:141-152 | rounding depends on the rational value only, not on the fraction that represents it |
| `DecimalOrder.NormalizedFitsPrecision` | squids/babydegen/src/decimal.ts:22 | a positive normalized coefficient is below 10^34 |
| `DecimalOrder.NormalizeFixedPoints` | squids/babydegen/src/decimal.ts:141-152 | normalization leaves a decimal alone if and only if it is zero in its normal form, or has no trailing zero and at most 34 counted digits |
| `DecimalOrder.NormalizeIdempotentIff` | squids/babydegen/src/decimal.ts:13-16 | normalization is idempotent on all nonnegative decimals, and on a negative one if and only if it does not keep a 35th digit that is counted the next time |
| `DecimalOrder.NormalizeIsCanonical` | squids/babydegen/src/decimal.ts:141-152 | nonnegative decimals of equal value normalize to the identical coefficient and scale |
| `DecimalOrder.NormalizeMonotone` | squids/babydegen/src/decimal.ts:141-152 | normalization keeps the order of nonnegative values |
| `DecimalNegative.NormalizeIsCanonicalIff` | squids/babydegen/src/decimal.ts:141-152 | decimals of equal value normalize to one representation if and only if they are not negative, or keep equally many digits, or have 0 as 35th significant digit |
| `DecimalOrder.NegativeCounterexample` | squids/babydegen/src/decimal.ts:13-16 | an input of both failures on negatives: two equal values, one of which a second normalization changes, with different normal forms |
| `DecimalArithmetic.AlignKeepsValues` | squids/babydegen/src/decimal.ts:154-159 | aligning brings both operands to the greater scale without changing a value |
| `DecimalNegative.SumAndDifference` | squids/babydegen/src/decimal.ts:161-169 | a sum or difference of any sign is the exact one of the normalized operands, rounded half-up to 34 digits when positive, truncated toward zero at 34 or 35 when negative |
| `DecimalNegative.Product` | squids/babydegen/src/decimal.ts:171-175 | the same for a product |
| `DecimalArithmetic.CmpDecidesOrder` | squids/babydegen/src/decimal.ts:188-191 | comparing through a rounded difference decides the exact order of the normalized values |
| `DecimalArithmetic.CmpZeroIffSameNormalForm` | squids/babydegen/src/decimal.ts:188-200 | two decimals of any sign compare equal if and only if they have the same normal form |
| `DecimalNegative.CmpRespectsValuesIff` | squids/babydegen/src/decimal.ts:188-212 | for decimals a <= b of any sign, comparison does not put a above b if and only if they are not two negatives that agree in 34 digits, b keeping a 35th digit other than 0 that a does not |
| `DecimalNegative.NegativeOrderCounterexample` | squids/babydegen/src/decimal.ts:187-191 | two negative decimals whose exact order comparison reverses |
| `DecimalArithmetic.ComputeLongDivision` | squids/babydegen/src/decimal.ts:226-242 | both loops of the division end and compute the exact quotient, or its 100-digit half-up rounding |
| `DecimalArithmetic.ComputeDiv` | squids/babydegen/src/decimal.ts:177-185 | division with its zero, one and equal-coefficient shortcuts; it fails on a zero divisor and on no other, and zero divided by anything else is zero |
| `DecimalDivision.Division` | squids/babydegen/src/decimal.ts:177-185 | what division gives for every pair of operands: an error, zero, the half-up rounding of the exact quotient or its truncation, by their signs |
| `DecimalDivision.DivRounds` | squids/babydegen/src/decimal.ts:177-185 | for operands of the same sign division is the quotient of the normalized operands rounded half-up to 34 digits, through all shortcuts |
| `DecimalDivision.ExtendedQuotientRounds` | squids/babydegen/src/decimal.ts:235-241 | the 100-digit intermediate rounding never changes the 34-digit result |
| `DecimalDivision.LongDivisionRounds` | squids/babydegen/src/decimal.ts:221-243 | rounding the long division is rounding the exact quotient, whether the division ends or is cut |
| `DecimalDivision.DivTruncates` | squids/babydegen/src/decimal.ts:177-225 | for operands of opposite signs the exact quotient of the normalized operands is truncated toward zero at the digits counted beyond 34; by one, the dividend is normalized a second time |
| `DecimalNegative.DivByOneIff` | squids/babydegen/src/decimal.ts:181 | dividing by one gives the normalized dividend if and only if that does not change when normalized again |
| `DecimalText.ScanRender` | squids/babydegen/src/decimal.ts:85 | every text of the decimal grammar is split into its capture groups |
| `DecimalText.ParseIsTheGrammar` | squids/babydegen/src/decimal.ts:84-93 | parsing succeeds if and only if the trimmed text is in the grammar, and gives the value of its groups |
| `DecimalText.ParseGives` | squids/babydegen/src/decimal.ts:84-93 | any text of the grammar is read as the number its digits write place by place, negative after a minus, at the scale of its fraction less its exponent |
| `DecimalText.TrimTakesSpaces` | squids/babydegen/src/decimal.ts:85 | what is taken off the text before it is read is white space at its two ends, all of it |
| `DecimalText.ParseToFixed` | squids/babydegen/src/decimal.ts:84-115 | parsing what is printed gives the same value for every decimal, and the identical representation when the scale is not negative |
| `DecimalText.ToFixedIsPlain` | squids/babydegen/src/decimal.ts:104-115 | a decimal is printed with a minus or no sign, no exponent, exactly scale digits behind the point, no point for none, and no leading zero |
| `BasiusHandlers.Ctx.HandleRegisterInstance` | squids/babydegen/src/handlers.ts:85-114 | which registrations are kept, and when a service takes the new operator |
| `BasiusHandlers.Ctx.HandleCreateMultisig` | squids/babydegen/src/handlers.ts:116-180 | when a service is created or only updated, and which safes and services it announces |
| `BasiusHandlers.Ctx.CreateSafeDataSource` | squids/babydegen/src/handlers.ts:54-58 | a second instance at a known address is dropped |
| `BasiusHandlers.Ctx.Handle` | squids/babydegen/src/dispatch.ts:41-81 | which logs reach a handler; Safe events only for existing hosts |
| `BasiusHandlers.DispatchGrowth` | squids/babydegen/src/dispatch.ts:41-81 | services and hosts grow by exactly the announced new ones, and only on a CreateMultisigWithAgents of the registry |
| `BasiusRegistry.RunShows` | squids/babydegen/src/handlers.ts:85-180 | after any logs the operator recorded for an id is that of its last accepted registration, the services are the multisigs created for registered ids under the operator last recorded for them, and the Safe hosts are exactly those multisigs and the operators they were created under |
| `BasiusRegistry.ChainShows` | squids/babydegen/src/block.ts:1-18 | the same for a chain of blocks, of the logs of all its blocks in order |
| `BasiusBlock.ProcessBlock` | squids/babydegen/src/block.ts:71-123 | whichever of the block's logs the stream carried, the block ends in the state and with the handler runs that the whole block gives in graph-node order |
| `BasiusBlock.BlockTrace` | squids/babydegen/src/block.ts:1-18 | the handler runs of a block are, by log index, exactly the registry and transfer logs that concern a service as the earlier logs left it and the Safe logs of hosts known before, then by log index exactly the Safe logs of hosts created in it; none twice |
| `BasiusBlock.FetchMissingLogs` | squids/babydegen/src/block.ts:40-67 | the fetched logs are exactly the block's transfers of the services and Safe logs of the hosts |
| `BasiusBlock.UnmatchedIsNoOp` | squids/babydegen/src/block.ts:109-114 | a log the stream did not subscribe to has no effect in place |
| `BasiusBlock.InsertLater` | squids/babydegen/src/block.ts:115-117 | a fetched log is inserted at its place among the logs still to come |
| `BasiusBlock.MergeExtra` | squids/babydegen/src/block.ts:106-118 | what one fetched log does to the queue, the seen set and the deferred logs, duplicates and past logs included |
| `BasiusBlock.CollectPast` | squids/babydegen/src/block.ts:97-99 | past Safe logs of new hosts are deferred, each once |
| `BasiusBlock.SortLogsSorts` | squids/babydegen/src/block.ts:77 | sorting by log index keeps exactly the logs |
| `BasiusSources.FirstSpawnIndex` | squids/babydegen/src/sources.ts:82-101 | the scan finds the first block with a new service, and hands on the ids it has seen |
| `BasiusSources.CutAtSpawn` | squids/babydegen/src/sources.ts:116-134 | for every split of the stream into batches the output is the whole stream up to and including the first block with a new service |
| `BasiusSources.ScanBlocksConcat` | squids/babydegen/src/sources.ts:77-81 | scanning batch by batch with the shared set is scanning the whole stream |
| `BasiusSources.BlockScanAgrees` | squids/babydegen/src/sources.ts:71-76 | the scan of the carried logs finds a new service if and only if the handlers create one in that block |
| `BasiusSources.CutIsFirstNewService` | squids/babydegen/src/sources.ts:103-134 | the cut is at the first block in which the handlers create a service, so no earlier block is processed under filters missing a registered safe |
| `BasiusSources.RunOnce` | squids/babydegen/src/main.ts:69-95 | one run of the processor, cut or not, leaves what the chain gives up to its last block |
| `BasiusSources.IndexChain` | squids/babydegen/src/main.ts:97-101 | the restart loop ends and indexes the whole chain as one run over complete blocks would, however the portal batches |
| `FkStore.Store.Upsert` | squids/_shared/src/entityCache.ts:139-145 | rows of a batch are written one by one, columns not loaded keep their value, and every state in between is consistent when the links are into stored rows |
| `FkStore.WrittenRow` | squids/_shared/src/entityCache.ts:139-145 | a written row holds its data and loaded links; a link not loaded is left as stored |
| `FkStore.WrittenConsistent` | squids/pearl-transactions/src/entityCache.ts:33-36 | writing rows whose links are stored or written with them leaves no dangling foreign key |
| `PearlFlush.NoOrderIsSafe` | squids/pearl-transactions/src/entityCache.ts:45-52 | no order of the classes satisfies every foreign key: the Service and AgentSafe cycle is genuine |
| `PearlFlush.FlushOrderIsSafeButForTheCycle` | squids/pearl-transactions/src/entityCache.ts:41-59 | the listed order satisfies every foreign key of the schema but Service.agentSafe |
| `PearlFlush.FlushOrderIsExhaustive` | squids/pearl-transactions/src/entityCache.ts:65-83 | every entity class is in the flush order |
| `PearlFlush.SecondPass` | squids/pearl-transactions/src/entityCache.ts:330-335 | writing services without and then with their agent safe is writing them once as they are |
| `PearlFlush.HoldBackAgentSafes` | squids/pearl-transactions/src/entityCache.ts:310-322 | exactly the linked dirty services are put aside with their link and nulled |
| `PearlFlush.RestoreAgentSafes` | squids/pearl-transactions/src/entityCache.ts:332 | the entities get their own links back |
| `PearlFlush.EntityCache.Set` | squids/pearl-transactions/src/entityCache.ts:176-179 | an entity set is the one a later flush sees for its class and id |
| `PearlFlush.EntityCache.FlushClass` | squids/pearl-transactions/src/entityCache.ts:324-336 | one class is written and cleared and, after the agent safes, the services again |
| `PearlFlush.EntityCache.Flush` | squids/pearl-transactions/src/entityCache.ts:300-341 | from a consistent store, with dirty links into stored or dirty rows, no foreign key dangles after any single row, and in the end every dirty row is stored with its original links and the entities in memory are unchanged |
| `SharedFlushOrder.ExhaustiveIff` | squids/_shared/src/entityCache.ts:51-73 | the first check passes if and only if the order lists every model exactly once and nothing else |
| `SharedFlushOrder.FkSafeIff` | squids/_shared/src/entityCache.ts:86-103 | the second check passes, on such a list, if and only if every relation to another listed class has it earlier |
| `SharedFlushOrder.PositionIsLast` | squids/_shared/src/entityCache.ts:90 | a class listed twice counts with its last position |
| `SharedFlushOrder.ConsistentAfterClass` | squids/_shared/src/entityCache.ts:202-209 | with both checks passed no foreign key dangles after the statement of any class, links inside a class included |
| `SharedFlushOrder.BucketIsSafe` | squids/_shared/src/entityCache.ts:202-209 | without links inside a class, each bucket refers only to rows already stored |
| `SharedCache.EntityCache.Get` | squids/_shared/src/entityCache.ts:165-190 | a get trusts a hit only with every relation asked for, and never replaces a dirty row by a stored one |
| `SharedCache.EntityCache.Set` | squids/_shared/src/entityCache.ts:192-200 | a set is refused for another class, else it is the dirty and the cached value |
| `SharedCache.EntityCache.Flush` | squids/_shared/src/entityCache.ts:202-209 | buckets are written in order and cleared; under a checked order no foreign key dangles after any bucket, links inside a class included, and in the end nothing stays dirty and everything is written |
| `SharedCache.ReadThrough` | squids/_shared/src/entityCache.ts:146-210 | after any sequence of gets, sets and flushes a get returns what it would without a cache: the last value set in the batch, else the stored row with every requested relation loaded |
| `SharedCache.SetIsReadBack` | squids/_shared/src/entityCache.ts:186-200 | a set value is read back until the row is set again or flushed |
| `SharedCache.ResaveKeepsLinks` | squids/_shared/src/entityCache.ts:139-145 | saving a row again after reading it with any relations erases no stored link |
| `Settlement.BetAmount` | squids/predict-polymarket/src/handlers.ts:565-572 | a buy costs at least its maker amount; a sell is never positive and never more than its proceeds |
| `SettlementSquid.Squid.HandleCreateMultisigWithAgents` | squids/predict-polymarket/src/handlers.ts:75-109 | a trader service's multisig becomes an agent once, with nothing on its books |
| `SettlementSquid.Squid.RecordBet` | squids/predict-polymarket/src/handlers.ts:556-627 | the day, the bet and, through the trade activity, the agent, participant, market and Global rows |
| `SettlementSquid.Squid.ProcessTradeActivity` | squids/predict-polymarket/src/logic.ts:90-170 | the rows a trade writes, a new participant linked to the question only if it exists |
| `SettlementSquid.Squid.ProcessMarketResolution` | squids/predict-polymarket/src/logic.ts:180-308 | a tracked question settles once; the loop with its Global deltas ends where settling each participant with Global in step does |
| `SettlementSquid.Squid.SettleOne` | squids/predict-polymarket/src/logic.ts:222-298 | one participant settles: payout, settled amounts, profit of the day, bets counted |
| `SettlementSquid.Squid.ParticipantsByQuestion` | squids/predict-polymarket/src/entityCache.ts:133-144 | exactly the participants linked to the question, each once |
| `SettlementSquid.Squid.ProcessRedemption` | squids/predict-polymarket/src/logic.ts:314-366 | a payout is booked on agent, participant, day and Global, or ignored when one of agent, question and participant is missing |
| `SettlementBooks.PostBalances` | squids/predict-polymarket/src/logic.ts:90-170 | entering the same amounts in all four books keeps every total, for Global and for each agent |
| `SettlementProofs.BetPosts` | squids/predict-polymarket/src/handlers.ts:556-627 | a bet enters the same amount in the books of participant, agent, day and Global |
| `SettlementProofs.SettlingPosts` | squids/predict-polymarket/src/logic.ts:249-278 | a settlement enters the same settled amount and expected payout in all four books |
| `SettlementProofs.RunIsValid` | squids/predict-polymarket/src/logic.ts:90-366 | after any run Global's traded, settled, expected and paid amounts are the totals over agents, participants and days, per agent too, and a participant's traded amount, settled amount and shares are those of its bets, its counted bets, and its bets on each outcome |
| `SettlementProofs.RunCounts` | squids/predict-polymarket/src/logic.ts:103-151 | Global counts exactly the bets, agents, agents that traded, and markets with a participant |
| `SettlementLedger.RunShows` | squids/predict-polymarket/src/logic.ts:90-366 | after any run every participant's amounts, shares, bets, link and settlement, every bet, every agent's bets, and every day's bets, amounts, profit and markets are what the events say: fills of agents, redemptions of participants in tracked markets, and first resolutions of tracked markets |
| `SettlementLedger.SettledOnShares` | squids/predict-polymarket/src/logic.ts:222-258 | a participant is settled if and only if an event resolved its market while it was linked to it; the row then holds, after any later events, what it had traded by then as settled, and as expected the winning outcome's shares its fills had brought by then, or each outcome's part rounded down |
| `SettlementProofs.DailyProfit` | squids/predict-polymarket/src/logic.ts:250-273 | the profits of all days add up to the expected payouts less the settled amounts |
| `SettlementProofs.SettlementIsFinal` | squids/predict-polymarket/src/logic.ts:222-224 | what a settlement booked for a participant never changes again |
| `SettlementProofs.SettlingAllSettles` | squids/predict-polymarket/src/logic.ts:222-258 | whatever order the participants are listed in, exactly those not settled before are settled and no other row changes |
| `SettlementProofs.PayoutIsBacked` | squids/predict-polymarket/src/logic.ts:230-247 | however a market resolves, a participant is expected at most one unit per share |
| `StakingSquid.Squid.GetOrCreateServiceRewardsHistory` | squids/staking/src/handlers.ts:65-94 | a missing row is created and counted for a known service, and throws for an unknown one |
| `StakingSquid.Squid.HandleServiceStaked` | squids/staking/src/handlers.ts:163-227 | the service, tracker, history and Global rows after a stake |
| `StakingSquid.Squid.HandleCheckpoint` | squids/staking/src/handlers.ts:228-310 | the two loops of a checkpoint and the tracker of the next epoch, or a throw |
| `StakingSquid.JoinTrackers` | squids/staking/src/handlers.ts:304-306 | the next tracker is the union of both lists in order |
| `StakingSquid.Squid.HandleRewardClaimed` | squids/staking/src/handlers.ts:329-351 | a claim on an OLAS contract is booked, on another ignored, and throws for an unknown service |
| `StakingSquid.Squid.HandleServiceUnstaked` | squids/staking/src/handlers.ts:352-395 | the rows after a voluntary or forced unstake |
| `StakingProofs.RunIsValid` | squids/staking/src/handlers.ts:163-395 | over any run Global's staked amount is the sum over services and the difference of the cumulative ones, its rewards and claims are the sums over services, and every service counts exactly its history rows |
| `StakingLedger.RunShows` | squids/staking/src/handlers.ts:163-395 | after any completed run the services are those that staked; their stakes, returns, rewards, claims and contract, Global's totals, the trackers and the history rows are what the stakes, checkpoints, claims and unstakes say |
| `StakingLedger.CompletesIff` | squids/staking/src/handlers.ts:65-94 | a run completes if and only if every checkpoint has a reward for each service and no listed reward, OLAS claim or unstake is of a service that never staked |
| `StakingLedger.StakedIsLastStakeIff` | squids/staking/src/handlers.ts:187-210 | what a service has staked is its last stake, or nothing once returned, if and only if it never staked on top of a stake |
| `StakingProofs.StakedIsNonNegative` | squids/staking/src/handlers.ts:370-389 | no service and not Global ever has a negative stake |
| `StakingProofs.UnstakeThrowsIff` | squids/staking/src/handlers.ts:369-386 | an unstake aborts its batch if and only if its service never staked, on any contract |
| `StakingEpochs.CheckpointSetsRows` | squids/staking/src/handlers.ts:244-292 | a checkpoint links each listed service's row with the reward listed last, each other tracked service's row without reward unless it is staked elsewhere, and leaves every other row alone |
| `StakingEpochs.KeepsRewardIff` | squids/staking/src/handlers.ts:244-292 | exactly when a history row keeps the reward it has, from an unstake say, through a checkpoint of its epoch |
| `StakingEpochs.UnstakeRewardIsLost` | squids/staking/src/handlers.ts:281-386 | a run that stakes, unstakes with a reward and checkpoints without listing the service: claimed, and zero on the row |
| `StakingEpochs.CheckpointCarriesTracker` | squids/staking/src/handlers.ts:266-310 | the whole tracker is carried into the next epoch, each service once, and no other tracker changes |
| `TokenSupply.Squid.HandleTransfer` | squids/tokenomics/src/handlers.ts:31-74 | the token and holder rows of a transfer, or a throw |
| `TokenSupply.BalanceIsLedger` | squids/tokenomics/src/handlers.ts:30-74 | after any completed run every holder has what the transfers brought it less what they took, self-transfers included, and the token what was minted less what was burned |
| `TokenSupply.CompletesIff` | squids/tokenomics/src/handlers.ts:56-61 | a run completes if and only if no transfer takes from a holder more than the transfers before it left there |
| `TokenSupply.TransferKeepsValidIff` | squids/tokenomics/src/handlers.ts:53-73 | a completed transfer keeps balances nonnegative, their sum the token's balance, the holder count exact and the zero address no holder, if and only if it is not a positive amount between two zero addresses |
| `TokenSupply.RunIsValidIff` | squids/tokenomics/src/handlers.ts:30-74 | the same after any completed run: if and only if no transfer in it is a positive amount between two zero addresses |
| `TokenSupply.MintToNobody` | squids/tokenomics/src/handlers.ts:30-74 | such a transfer completes from any valid state, the first one included, and leaves an invalid one |
| `PearlLedger.ClassifiedOwner` | squids/pearl-transactions/src/logic.ts:239-330 | which Master Safe's history a transfer is in, which Agent Safe and service it names, and when the sending Master Safe is named too |
| `PearlRows.CategoryIff` | squids/pearl-transactions/src/logic.ts:239-330 | a kept transfer has the one category whose meaning, by the roles of its ends and in no order, it meets; Other only if it meets no other's |
| `PearlLedger.Squid.HandleTransfer` | squids/pearl-transactions/src/handlers.ts:1002-1130 | the movement row with its owner, service, agent safe and funding action, the setup flag, the funding totals and the balances of a transfer |
| `PearlLedger.FundingIsItsRows` | squids/pearl-transactions/src/handlers.ts:959-1092 | over any run a funding action exists exactly when a row is grouped under it, its native and OLAS totals are those of its rows, and its rows are what that Master Safe sent that service |
| `PearlLedger.Squid.UpsertTokenBalance` | squids/pearl-transactions/src/handlers.ts:312-340 | a balance row starts at or moves by a signed amount |
| `PearlLedger.Squid.HandleTokenDeposit` | squids/pearl-transactions/src/handlers.ts:655-688 | a bond deposit debits a tracked Master Safe and nobody else |
| `PearlLedger.Squid.HandleTokenRefund` | squids/pearl-transactions/src/handlers.ts:690-723 | a bond refund credits a tracked Master Safe and nobody else |
| `PearlLedger.Squid.UpsertTracked` | squids/pearl-transactions/src/entityCache.ts:277-296 | the first role of an address stands |
| `PearlLedger.BalanceIsLedger` | squids/pearl-transactions/src/handlers.ts:1095-1130 | for every run a Master Safe's token balance is its ERC-20 transfers in less out since it was tracked, without SRTU legs and what the registry sends, plus refunds less deposits; Master to Master and self transfers included |
| `PearlRows.BalanceIsLedger` | squids/pearl-transactions/src/handlers.ts:1095-1130 | the balance of any address but the SRTU and the registry, whatever its role, is what the events of the run paid it: Master Safes, Agent Safes, agent EOAs from Master Safes, and nobody else |
| `PearlLedger.AgentFollowsTransfersIff` | squids/pearl-transactions/src/logic.ts:308-324 | an Agent Safe's balance follows a transfer if and only if it is not a positive amount sent to it by an Agent Safe, itself included |
| `PearlLedger.AgentToAgentIsLost` | squids/pearl-transactions/src/handlers.ts:1095-1130 | a run in which one Agent Safe pays another: the sender is debited, the receiver not credited |
| `PearlLedger.Squid.RowsAreLedger` | squids/pearl-transactions/src/handlers.ts:655-1130 | whatever events the handlers have handled, the rows they hold are the ledger, the setup flags and the funding totals of those events |
| `PearlLedger.SetupTransferOnce` | squids/pearl-transactions/src/handlers.ts:1067-1075 | a Master Safe has at most one setup transfer in its history, and its flag says whether it has |
| `PearlRows.SetupTransferIff` | squids/pearl-transactions/src/handlers.ts:1025-1075 | a Master Safe has its one setup transfer if and only if a Master EOA ever sent it something |
| `PearlRows.RunShows` | squids/pearl-transactions/src/handlers.ts:1002-1092 | over any run an address has the role it was first tracked with, and the movements are the transfers that count by the roles of their time, in order, each with its own token, amount, ends and group |
| `BondQueue.BondQueue.Enqueue` | squids/pearl-transactions/src/logic.ts:375-379 | a bond row is queued behind those of its transaction, and no other queue changes |
| `BondQueue.BondQueue.Dequeue` | squids/pearl-transactions/src/logic.ts:387-397 | rows leave in the order they came, each once |
| `BondQueue.BondQueue.DequeueAgentBondOnce` | squids/pearl-transactions/src/logic.ts:405-410 | at most one row for a transaction and a service |
| `BondQueue.DequeuedInOrder` | squids/pearl-transactions/src/logic.ts:391-395 | marking the oldest open row leaves the attributed rows a prefix of those enqueued |
| `MultiSend.UnpackMultiSend` | squids/pearl-transactions/src/logic.ts:119-138 | the loop ends, because each leg takes at least its head, and computes the parse the next two lemmas are about |
| `MultiSend.UnpacksIff` | squids/pearl-transactions/src/logic.ts:119-138 | a buffer unpacks if and only if it is, after an optional prefix, a concatenation of well-formed packed legs |
| `MultiSend.UnpackPacked` | squids/pearl-transactions/src/logic.ts:119-138 | on the packing of any legs the result is exactly the CALL legs without data and with value, with their positions |
| `MultiSendLegs.NativeLegsAre` | squids/pearl-transactions/src/logic.ts:124-136 | a leg is listed if and only if its operation is 0, it has no data and its value is positive, read as hex numbers, under its own position with its recipient and value |
| `MultiSend.ParsePacked` | squids/pearl-transactions/src/logic.ts:124-136 | reading a packing gives its legs back |
| `MultiSend.PackParsed` | squids/pearl-transactions/src/logic.ts:124-136 | what is read packs to the buffer it was read from |
| `SafeLogs.BlockSafeLogs.Block` | squids/service-registry/src/safeLogs.ts:27-75 | per block the handled logs are those of safes with a row before it, in log order, then all logs of safes first registered in it, in log order |
| `SafeLogs.ExpectedOnce` | squids/service-registry/src/safeLogs.ts:4-15 | that is each log of those safes once, and no others |
| `SafeLogs.BlockSafeLogs.CreateMultisig` | squids/service-registry/src/safeLogs.ts:44-50 | a multisig that gets its first row in the block is noted |
| `SafeLogs.BlockSafeLogs.HandleCreateMultisig` | squids/service-registry/src/handlers.ts:315-374 | a row and a known-set entry appear together, and only for an existing service |
| `SafeLogs.BlockSafeLogs.SafeLog` | squids/service-registry/src/safeLogs.ts:52-63 | a log is handled at once if and only if its safe had a row before the block, else it is parked |
| `SafeLogs.BlockSafeLogs.EndBlock` | squids/service-registry/src/safeLogs.ts:66-74 | parked logs of newly registered safes are handled in order, and the block's state is cleared |
| `SwapBuffer.RunIsValid` | subgraphs/babydegen-mode/src/swapTracking.ts:134-173 | over any run every swap added is still in a bucket, dropped or charged; raw slippage is conserved; nothing is dropped within 900 seconds of its swap or charged outside its window |
| `SwapBuffer.NeverTwice` | subgraphs/babydegen-mode/src/helpers.ts:395-478 | with distinct swap ids each swap is in exactly one of those places, so it is never charged twice |
| `SwapBuffer.Charge` | subgraphs/babydegen-mode/src/helpers.ts:473-477 | a position is charged the slippage of the swaps it takes, or nothing when that is a gain |
| `SwapBuffer.DroppedBeforeItExpires` | subgraphs/babydegen-mode/src/swapTracking.ts:152-160 | a concrete run in which a swap is rotated out inside its 1200 second window |
| `SwapWindow.DroppedEarlyIff` | subgraphs/babydegen-mode/src/swapTracking.ts:134-173 | over any run in block order a swap is dropped inside its window if and only if each of the next three five minutes brings a swap, the fourth brings one inside the window, and no association comes between |
| `SwapWindow.ChargedIff` | subgraphs/babydegen-mode/src/helpers.ts:395-478 | over any run in block order a swap is charged to a position if and only if an association comes inside its window and the buffer has not lost it before |
| `SwapWindow.TotalIsSlippage` | subgraphs/babydegen-mode/src/swapTracking.ts:162-173 | the running total is the slippage of all the swaps of the run |
| `SwapText.SwapDataFields` | subgraphs/babydegen-mode/src/swapTracking.ts:70-72 | the fields of a swap string are read back by position |
| `SwapText.RenderSplits` | subgraphs/babydegen-mode/src/helpers.ts:422 | splitting a bucket string gives back its swaps |
| `SwapText.ParseTotalSlippage` | subgraphs/babydegen-mode/src/helpers.ts:374-393 | the sum over the string is the slippage of the bucket's swaps |
| `SwapText.AssociateBucket` | subgraphs/babydegen-mode/src/helpers.ts:412-465 | the chargeable swaps leave the bucket string, the others stay in order |
| `SwapText.AgentSwapBuffer.AddSwap` | subgraphs/babydegen-mode/src/swapTracking.ts:134-173 | rotating and appending on strings is rotating and appending swaps |
| `SwapText.AgentSwapBuffer.AssociateSwaps` | subgraphs/babydegen-mode/src/helpers.ts:395-478 | the charge, the strings left and the transactions marked are those of the swaps in the buckets |

## Left out

- Floating point: `Math.floor(bits / LOG2_10)` is modelled as the greatest e with 10^e <= 2^bits, and an exponent read by `Number()` as an exact integer.
- Prices, portfolios, funding balances and snapshots of the babydegen squid: a function of the handler runs the trace records.
- Asynchronous execution, TypeORM, logging, ABI decoding, hex and id building, RPC and portal access, environment and constants.
- SharedFlushOrder.ConsistentAfterClass: covers links within one class per class, not per statement, because an upsert is split into several statements by which columns are loaded; without such links every single row is covered.
- Aliasing in the shared cache: rows are values, so a row changed in memory without being set is not modelled; Pearl's flush, which depends on it, is modelled on objects.
- Pearl's process-wide tracked-address index, `getService`, `getAgentInstance` and Safe probing: they depend on restarts and endpoints. Roles are a write-once map.
- PearlLedger.FundingIsItsRows: covers the rows of transfers; native legs to agent signers, which MultiSend calldata adds to the same groups, need the agent-instance table. Daily reward funds and links of bond rows to services are sums of the same shape.
- Brier scores, bet metadata and builder fields of prediction markets; deposit wallets, which only decide who the maker is; the sources of questions, which are one event here.
- Daily staking snapshots and their median.
- Swap prices and slippage amounts, which come from price feeds; slippage is a real number, and the rounding of its sum to 34 digits is not modelled. `searchAndAssociateRecentSwaps` and `associateSwapWithPosition` are not called in the repository.
- Mech fees, liquidity and marketplace counters, daily counters of the service registry and the autonolas subgraphs: totals that equal the sum of their parts, with less branching.
- Velodrome, Balancer and Sturdy positions: driven by contract calls and by libraries that are not part of this model.
