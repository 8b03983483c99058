# Conquest damage calculator — combat resolution core

This project models the Monte Carlo engine of the Conquest damage calculator
in Dafny, and proves properties of that model. The calculator estimates how
much damage one regiment (the attacker) deals to another (the defender) in
the tabletop game *Conquest*.

Each combat runs four phases:

- **Attack:** `attacks × stands + extraAttacks` d6; a die at most Clash hits, and a 1 scores two hits with Relentless Blows.
- **Defense:** one d6 per hit. A die at most the effective Defense (Defense lowered by Cleave, Cleave lowered by Hardened, never below 1), or at most Evasion, blocks.
- **Damage:** the unblocked hits become whole stands killed and leftover wounds.
- **Morale:** one d6 per point of damage; each die above Morale is one more wound.

The simulator resolves `iterations` combats on one shared dice roller. When seeded, the roller is a linear congruential generator modulo 2^31. Its step runs on JavaScript doubles: once the product reaches 2^53, for a state above 8162278, it is rounded to a double before the remainder is taken. From seed 42 that first happens at the second step. The simulator records each combat's scalars and aggregates them per metric into:

- a value-to-probability table;
- a summary: mean, variance, median, mode, min, max and the 25/50/75/90/95th interpolated percentiles.

Input validation of unit stats and of the iteration count is modelled too.

## Modules

| module | file | what it holds |
|---|---|---|
| `Wrappers` | Wrappers.dfy | `Option` |
| `JsArith` | JsArith.dfy | JavaScript's truncating `%`, `Math.max`, `Math.min`, and rounding an integer to the nearest double |
| `Tally` | Tally.dfy | counting, first-seen order (a `Map`'s insertion order), ascending copy, sum |
| `UnitTypes`, `CombatTypes`, `SimulationTypes` | *Types.dfy | the records the engine passes around |
| `RuleRegistry` | SpecialRuleTypes.dfy | the per-phase special-rule hook tables, and the fold each phase ends with |
| `Dice` | DiceRoller.dfy | the `DiceRoller` class: the generator step, single and multiple rolls |
| `CombatPhases` | CombatPhases.dfy | each phase as a method on the roller, proved equal to a pure `…PhaseOf` function of the dice it drew |
| `Statistics` | StatisticsCalculator.dfy | distribution, mode, mean and variance, percentiles, summary |
| `Simulator` | ConquestSimulator.dfy | the `ConquestSimulator` class and the pure description of a run |
| `Validation` | Validation.dfy | stat and iteration validation, `clamp` |

Methods mirror the source's loops and in-place updates. Each is proved against a pure function, or a predicate on its result. The function's own properties are proved as lemmas. A seeded roller's dice are tied to the generator by `Dice.Drawn`:

- `LcgRolls(s, n)` are the `n` faces drawn from state `s`.
- `LcgAfter(s, n)` is the state afterwards.

Unseeded dice are arbitrary faces.

## Model

| member | source | states |
|---|---|---|
| JsArith.Ulp | src/engine/DiceRoller.ts:19 | the spacing of the doubles next to an integer is at least 1, and exactly 1 below 2^53 |
| JsArith.Mantissa | src/engine/DiceRoller.ts:19 | the mantissa kept for an integer fits in 53 bits |
| JsArith.Truncated | src/engine/DiceRoller.ts:19 | the integer with the bits below its spacing cleared is at most the integer and within one spacing of it |
| JsArith.TruncatedIsScaledMantissa | src/engine/DiceRoller.ts:19 | that truncated value is the mantissa times the spacing |
| JsArith.RoundShiftedChoice | src/engine/DiceRoller.ts:19 | shift-and-round with guard and sticky bits keeps the truncated value below the half-spacing, and also at exactly the half with an even mantissa; otherwise it goes up one spacing |
| JsArith.RoundMagnitudeIsNearest | src/engine/DiceRoller.ts:19 | the rounded magnitude is a multiple of the spacing, at most half a spacing from the integer, and the even multiple on a tie |
| JsArith.RoundToDouble | src/engine/DiceRoller.ts:19 | an integer below 2^53 in magnitude is stored exactly, and a non-negative one stays non-negative |
| JsArith.RoundToDoubleIsNearest | src/engine/DiceRoller.ts:19 | the stored double is the nearest one to the integer, ties to even, with the integer's sign |
| Dice.StepSum | src/engine/DiceRoller.ts:19 | `state * 1103515245 + 12345` evaluated in doubles: non-negative for a non-negative state, and exact while the product and sum are below 2^53 |
| Dice.NextState | src/engine/DiceRoller.ts:19 | one generator step (the rounded sum, reduced mod 2^31) always lands on a state in [0, 2^31) |
| Dice.SmallStateStepsExactly | src/engine/DiceRoller.ts:19 | from a state of at most 8162278 the step is the exact-integer one: the product and the sum stay below 2^53 |
| Dice.NextStateAsWritten | src/engine/DiceRoller.ts:19 | the step with JavaScript's truncating `%` equals the modelled step on every non-negative state |
| Dice.Face | src/engine/DiceRoller.ts:20 | a state in [0, 2^31) gives a die face from 1 to 6 |
| Dice.NegativeSeedRollsOutOfRange | src/engine/DiceRoller.ts:17-20 | with the step as written, seed −1 moves to state −1103502900, whose face is −3 |
| Dice.Seed42States | src/engine/DiceRoller.ts:19 | from seed 42 the first three states are 1250496027, 1116302080 and 1964818176 |
| Dice.Seed42Rolls | src/engine/DiceRoller.ts:16-21 | seed 42 rolls 4, 4, 6 |
| Dice.ExactIntegersWouldDiffer | src/engine/DiceRoller.ts:19-20 | with exact integer arithmetic the second state from seed 42 would be 1116302264, not 1116302080, and the third face 3, not 6 |
| Dice.SecondStepSum | src/engine/DiceRoller.ts:19 | the sum behind the second state from seed 42 is 1379941429606443776 in doubles |
| Dice.ThirdStepSum | src/engine/DiceRoller.ts:19 | the sum behind the third state from seed 42 is 1231856363305221888 in doubles |
| Dice.LcgAfter | src/engine/DiceRoller.ts:19 | after at least one step the state is in [0, 2^31); zero steps leave it unchanged |
| Dice.LcgRolls | src/engine/DiceRoller.ts:16-21 | `n` seeded rolls are exactly `n` faces, each from 1 to 6 |
| Dice.LcgAfterSplit | src/engine/DiceRoller.ts:19 | stepping `a + b` times is stepping `a` times, then `b` more |
| Dice.LcgRollsSplit | src/engine/DiceRoller.ts:28-29 | the first `a + b` rolls are the first `a`, then the `b` rolls drawn from where those left off |
| Dice.LcgRollsAt | src/engine/DiceRoller.ts:19-20 | the `i`-th seeded roll is the face of the state after `i + 1` steps |
| Dice.DiceCount | src/engine/DiceRoller.ts:29 | `rollMultiple` draws `count` dice, or none for a negative count |
| Dice.DrawingNothing | src/engine/DiceRoller.ts:28-29 | drawing zero dice yields no rolls and leaves the state alone |
| Dice.DrawingOneMore | src/engine/DiceRoller.ts:28-29 | drawing `n` dice and then one more is drawing `n + 1` dice |
| Dice.DiceRoller.constructor | src/engine/DiceRoller.ts:8-11 | the roller keeps the seed; seeded it starts in the seed, unseeded in [0, 2147483647) |
| Dice.DiceRoller.Roll | src/engine/DiceRoller.ts:16-23 | the face is from 1 to 6; seeded, the state takes one generator step and the face is that state's; unseeded, the state is untouched |
| Dice.DiceRoller.RollMultiple | src/engine/DiceRoller.ts:28-30 | draws `DiceCount(count)` faces in order; seeded they are `LcgRolls(old state, n)` and the state becomes `LcgAfter(old state, n)`; unseeded, the state is untouched |
| Dice.SameSeedSameRolls | src/engine/DiceRoller.ts:8-30 | two rollers built with the same seed roll the same dice |
| Dice.ConsecutiveDraws | src/engine/DiceRoller.ts:28-30 | drawing `a` then `b` dice from one seeded roller yields and leaves what drawing `a + b` at once would |
| JsArith.JsRem | src/engine/CombatPhases.ts:115 | JavaScript's `%` for a positive divisor: the ordinary remainder for a non-negative dividend, and a value in (−m, 0] for a negative one |
| RuleRegistry.DefaultRegistry | src/types/SpecialRuleTypes.ts:57-64 | the registry every simulator is built with has no hook in any phase |
| RuleRegistry.RunHooks | src/engine/CombatPhases.ts:44-52 | the hook loop returns the fold of the registered hooks of the unit's rules, in rule order, over the base result |
| RuleRegistry.ApplyHooksAppend | src/engine/CombatPhases.ts:45-52 | the hooks of rules `xs + ys` are the hooks of `xs`, then those of `ys` |
| RuleRegistry.ApplyHooksSkipsUnregistered | src/engine/CombatPhases.ts:46-47 | rules whose ids have no hook leave the result unchanged |
| RuleRegistry.EmptyHooksLeaveResult | src/engine/CombatPhases.ts:44-52 | an empty hook table returns the base result whatever rules the unit carries |
| CombatPhases.AttackHits | src/engine/CombatPhases.ts:25-35 | the hit total is at most one per die, or two per die with Relentless Blows |
| CombatPhases.AttackHitsCounts | src/engine/CombatPhases.ts:26-35 | hits = dice at most Clash, plus (with Relentless Blows and Clash ≥ 1) once more each die showing 1 |
| CombatPhases.AttackOf | src/engine/CombatPhases.ts:21-42 | the base result reports the pool size and the dice; hits are within the per-die bound, and zero without dice |
| CombatPhases.AttackPhase | src/engine/CombatPhases.ts:16-55 | draws the pool's dice from the roller and returns `AttackPhaseOf` of exactly those dice |
| CombatPhases.EffectiveCleave | src/engine/CombatPhases.ts:73 | Cleave after Hardened is never negative, and never above the attacker's Cleave when Hardened is non-negative |
| CombatPhases.EffectiveDefense | src/engine/CombatPhases.ts:76 | the effective Defense is at least 1 and at most the defender's Defense (or 1) |
| CombatPhases.HardenedNeverLowersDefense | src/engine/CombatPhases.ts:73-76 | raising Hardened never lowers the effective Defense |
| CombatPhases.Blocked | src/engine/CombatPhases.ts:79-81 | no more dice are blocked than were rolled |
| CombatPhases.OnesAlwaysBlocked | src/engine/CombatPhases.ts:76-81 | every defense die showing 1 is blocked, since the effective Defense is at least 1 |
| CombatPhases.BlockedIsAtMostEither | src/engine/CombatPhases.ts:79-81 | blocking on Defense or Evasion is blocking on the larger of the two |
| CombatPhases.DefenseOf | src/engine/CombatPhases.ts:70-89 | blocked + remaining = incoming; with one die per hit, remaining is the dice above max(effective Defense, Evasion), within 0..incoming |
| CombatPhases.DefensePhase | src/engine/CombatPhases.ts:63-102 | draws one die per incoming hit and returns `DefensePhaseOf` of exactly those dice |
| CombatPhases.DamageOf | src/engine/CombatPhases.ts:113-121 | damage = remaining hits; for non-negative damage, stands × health + wounds = damage, with wounds in [0, health) and stands in 0..damage |
| CombatPhases.DamagePhase | src/engine/CombatPhases.ts:108-134 | returns `DamagePhaseOf`; draws no dice |
| CombatPhases.MoraleOf | src/engine/CombatPhases.ts:154-161 | wounds are at most the dice; zero wounds exactly when no die exceeds Morale |
| CombatPhases.MoralePhaseOf | src/engine/CombatPhases.ts:146-171 | zero damage gives the empty morale result, whatever the hooks |
| CombatPhases.MoralePhase | src/engine/CombatPhases.ts:140-174 | draws one die per point of damage (none for zero damage, leaving the state alone) and returns `MoralePhaseOf` of those dice |
| CombatPhases.EmptyRegistryPhases | src/types/SpecialRuleTypes.ts:57-64 | with the default registry every phase returns its base result |
| Simulator.ExtractSingleResult | src/engine/ConquestSimulator.ts:122-138 | copies the phase scalars; stands killed is the floor of (damage + morale wounds) / health; casualties equal stands killed |
| Simulator.TrialFacts | src/engine/ConquestSimulator.ts:75-138 | with the default registry: damage is the unblocked hits, in 0..attack hits; morale wounds are in 0..damage; reported stands killed ≥ the damage phase's |
| Simulator.ScalarsFrom | src/engine/ConquestSimulator.ts:87-93 | the combat's scalars for any hit count given to the defense phase; a NaN count gives NaN damage and NaN stands killed |
| Simulator.AttackResultAsHitCount | src/engine/ConquestSimulator.ts:87-93 | as written (the attack result object, i.e. NaN, as the hit count), no defense or morale dice are drawn and every combat reports NaN damage, NaN stands killed, 0 morale wounds |
| Simulator.HitCountGivesModelledScalars | src/engine/ConquestSimulator.ts:87-93 | passing the attack's hit count yields exactly the scalars of `CombatOf` and `ExtractSingleResult` |
| Simulator.Samples | src/engine/ConquestSimulator.ts:45-51 | one sample per trial |
| Simulator.TrialAppended | src/engine/ConquestSimulator.ts:48-51 | one more combat appends exactly its own scalars |
| Simulator.MetricSamples | src/engine/ConquestSimulator.ts:145-159 | one metric value per sample |
| Simulator.CasualtiesAreStandsKilled | src/engine/ConquestSimulator.ts:134-136 | the casualty samples of a run equal its stands-killed samples |
| Simulator.ResultsAssembled | src/engine/ConquestSimulator.ts:61-66 | the assembled record carries the config, units, distributions and statistics of the samples |
| Simulator.CasualtyFiguresCoincide | src/engine/ConquestSimulator.ts:143-160 | equal samples give the casualty and stands-killed metrics equal distributions and equal summaries |
| Simulator.ResultsUnique | src/engine/ConquestSimulator.ts:39-70 | the results of a given sample sequence are unique |
| Simulator.ConquestSimulator.constructor | src/engine/ConquestSimulator.ts:20-23 | a fresh roller with the given seed (starting in it when seeded) and the empty registry |
| Simulator.ConquestSimulator.ResolveOneCombat | src/engine/ConquestSimulator.ts:75-117 | the phases' dice fit the combat, the resolution is `CombatOf` those dice, and a seeded roller advances by exactly those draws |
| Simulator.ConquestSimulator.BuildDistributions | src/engine/ConquestSimulator.ts:143-149 | the three tables are `DistributionOf` of the damage, stands-killed and casualty samples |
| Simulator.ConquestSimulator.CalculateAllStatistics | src/engine/ConquestSimulator.ts:154-161 | each of the four summaries satisfies `IsSummaryOf` for its metric's samples |
| Simulator.ConquestSimulator.RunTrials | src/engine/ConquestSimulator.ts:45-51 | `iterations` combats, one sample each, in order; seeded, the dice and final state are `SeededRun` from the starting state |
| Simulator.ConquestSimulator.RunSimulation | src/engine/ConquestSimulator.ts:39-70 | `iterations` combats whose dice fit; the results are those of their samples; casualty figures equal stands-killed figures; seeded, the dice are `SeededRun` from the starting state |
| Simulator.SameSeedSameResults | src/engine/ConquestSimulator.ts:20-70 | two simulators built with the same seed give equal results for the same units and iteration count |
| Statistics.DistributionOf | src/engine/StatisticsCalculator.ts:90-106 | the table's keys are exactly the observed values; empty input gives an empty table |
| Statistics.DistributionProbabilities | src/engine/StatisticsCalculator.ts:101-103 | every probability is in (0, 1] |
| Statistics.ProbabilitiesSumToOne | src/engine/StatisticsCalculator.ts:96-103 | over a non-empty sample the probabilities, in the table's order, add up to exactly 1 |
| Statistics.FrequencyTable | src/engine/StatisticsCalculator.ts:68-72 | the counting loop leaves each observed value's number of occurrences, keyed in first-seen order |
| Statistics.CountStep | src/engine/StatisticsCalculator.ts:70-72 | counting one more value extends the counts of a prefix to the next prefix |
| Statistics.BuildDistribution | src/engine/StatisticsCalculator.ts:90-106 | the built table is `DistributionOf(values)` |
| Statistics.ModeUnique | src/engine/StatisticsCalculator.ts:74-84 | a sample has only one mode |
| Statistics.FirstMostFrequentIsMode | src/engine/StatisticsCalculator.ts:74-84 | the first key, in first-seen order, that reaches the top count is the mode |
| Statistics.CalculateMode | src/engine/StatisticsCalculator.ts:65-85 | 0 for no values; otherwise a most frequent value, ties going to the value seen first |
| Statistics.SquaredDeviations | src/engine/StatisticsCalculator.ts:14 | the sum of squared deviations is non-negative |
| Statistics.Variance | src/engine/StatisticsCalculator.ts:14 | the variance is non-negative |
| Statistics.MeanBounds | src/engine/StatisticsCalculator.ts:11 | the mean lies between any lower and upper bound of the samples |
| Statistics.Interpolate | src/engine/StatisticsCalculator.ts:50-59 | at a whole position the element itself; in ascending data, between the two neighbouring elements |
| Statistics.Percentile | src/engine/StatisticsCalculator.ts:47-60 | 0 for no values; in ascending data, between the first and last element |
| Statistics.InterpolateMonotone | src/engine/StatisticsCalculator.ts:50-59 | in ascending data, a later position never interpolates lower |
| Statistics.PercentileMonotone | src/engine/StatisticsCalculator.ts:47-60 | in ascending data, a higher percentile is never smaller |
| Statistics.SortedCopyExtremes | src/engine/StatisticsCalculator.ts:7 | the ascending copy's first and last elements are samples bounding every sample |
| Statistics.SummaryUnique | src/engine/StatisticsCalculator.ts:6-42 | a sample has one summary |
| Statistics.SummaryFacts | src/engine/StatisticsCalculator.ts:6-42 | min and max are samples bounding every sample; min ≤ mean ≤ max; variance ≥ 0; median = p50; min ≤ p25 ≤ p50 ≤ p75 ≤ p90 ≤ p95 ≤ max |
| Statistics.CalculateStatistics | src/engine/StatisticsCalculator.ts:6-42 | the summary satisfies `IsSummaryOf`: mean, variance, mode, extremes and percentiles of the sample |
| Tally.CountAtMost | src/engine/CombatPhases.ts:79-81 | at most every element is counted, and all are exactly when all are at most the threshold |
| Tally.CountAbove | src/engine/CombatPhases.ts:155 | none are counted exactly when every element is at most the threshold |
| Tally.AtMostPlusAbove | src/engine/CombatPhases.ts:155 | every element is either at most the threshold or above it |
| Tally.Dedup | src/engine/StatisticsCalculator.ts:68-72 | the first-seen order holds exactly the observed values, each once |
| Tally.DedupFirstSeenOrder | src/engine/StatisticsCalculator.ts:77 | keys appear in the order of their first occurrences |
| Tally.InsertSorted | src/engine/StatisticsCalculator.ts:7 | inserting into an ascending sequence keeps it ascending |
| Tally.SortedCopy | src/engine/StatisticsCalculator.ts:7 | the copy is ascending, the same length, and a permutation of the input |
| Validation.Constraints | src/types/UnitTypes.ts:37-48 | every stat's default lies within its range |
| Validation.DecimalString | src/utils/validation.ts:18 | a number's decimal text is a non-empty string of digits |
| Validation.CheckRange | src/utils/validation.ts:13-29 | valid exactly when the value is a whole number within the range, and an error is reported exactly when invalid |
| Validation.ValidateStat | src/utils/validation.ts:7-30 | a stat is valid exactly when it is a whole number within that stat's range; otherwise the first failing check's message is reported |
| Validation.ValidateIterations | src/utils/validation.ts:35-53 | the count is valid exactly when it is a whole number from 1000 to 100000 |
| Validation.RangeErrorTakesPrecedence | src/utils/validation.ts:17-27 | a fractional out-of-range value gets the range message, not the whole-number one: "must be at least" the minimum below it, "cannot exceed" the maximum above it |
| Validation.DefaultsAreValid | src/types/UnitTypes.ts:37-48 | every stat's default passes that stat's validation |
| Validation.ValidHealthIsPositive | src/utils/validation.ts:7-30 | a validated health is a whole number of at least 1 |
| Validation.ValidIterationsRunAtLeastOnce | src/utils/validation.ts:35-53 | a validated iteration count is a whole number of at least 1 |
| Validation.JsMax | src/utils/validation.ts:59 | `Math.max` is NaN exactly when an argument is NaN, and otherwise the argument that is not below the other |
| Validation.JsMin | src/utils/validation.ts:59 | `Math.min` is NaN exactly when an argument is NaN, and otherwise the argument that is not above the other |
| Validation.Clamp | src/utils/validation.ts:58-60 | the result is NaN exactly when an argument is NaN. Otherwise it is within [min, max] when min ≤ max, the value itself when already inside, and max when max < min. It is always one of value, min and max |
| Validation.ClampIdempotent | src/utils/validation.ts:58-60 | clamping twice to the same range gives what clamping once does |

## Left out

- Execution time and timestamp (`performance.now()`, `new Date()`, ConquestSimulator.ts:44, 59, 67-68) are I/O and are not part of the result record.
- Standard deviation (`Math.sqrt`, StatisticsCalculator.ts:15) has no exact real counterpart; the summary omits `stdDev` and keeps the variance.
- Floating point: probabilities, means, variances and percentiles are exact rationals; JavaScript rounds each operation to a double. The generator step is the exception: its rounding is modelled (`JsArith.RoundToDouble`). Its face computation needs no rounding, since a state over 2^31, times 6, fits in 33 bits.
- Unseeded rolls come from `Math.random()`. The model treats each unseeded roll as an arbitrary face from 1 to 6, and an unseeded starting state as an arbitrary state in [0, 2147483647).
- Stats, seeds and iteration counts are integers. Non-integer or non-finite numbers are modelled only in `Validation`, whose inputs are JavaScript numbers (NaN, ±Infinity or a finite value). `Validation.Clamp` treats −0 and +0 as the same number.
- Dice.StepSum: a seed is taken as an integer. A fractional seed, or an integer seed too large to be a double, is not modelled; JavaScript would round such a seed before the first step.
- The hooks' random context (`randomGenerator`) is not passed to hooks. Hooks are pure functions of the result and the units, and the empty-object placeholders for a missing unit are `None`. The only registry the simulator builds is empty, so no hook ever runs in the model or in the source.
- The fifth argument `attacker` that `resolveOneCombat` passes to `moralePhase` (ConquestSimulator.ts:108) is ignored by `moralePhase` and is not modelled.
- Simulator.ConquestSimulator.RunSimulation: requires a health of at least 1 and at least one iteration. With a health of 0 the source divides by zero (Infinity/NaN); with no iterations the mean and variance are NaN (0/0), the median and percentiles 0, the mode 0, and min and max `undefined`. The validation that guards these inputs is modelled separately (`ValidHealthIsPositive`, `ValidIterationsRunAtLeastOnce`).
- Simulator.ConquestSimulator.CalculateAllStatistics: requires at least one sample, for the same reason.
- Statistics.CalculateStatistics: requires at least one value. On an empty input the source returns NaN for the mean and variance (StatisticsCalculator.ts:11, 14), 0 for the median, mode and percentiles (:48, :66), and `undefined` for min and max (:38-39).
- Simulator.ConquestSimulator.RunTrials: the first loop of `runSimulation` is a separate method.
- Statistics.FrequencyTable: the counting loop shared by `calculateMode` and `buildDistribution` is one method. `BuildDistribution` writes each probability into a new table, where the source overwrites each count in place; the resulting table is the same.
- A `Map`'s iteration order is modelled as the first-seen order of the values (`Tally.Dedup`).
- The default units carry reroll, Deadly Blades, Flawless Strikes, Smite, Terrifying, Torrential Fire, Indomitable, Oblivious, Tenacious and defensive and morale reroll fields (constants.ts:15-21, 36-41). No engine code reads them: the engine reads only Relentless Blows and Hardened. Defense floors at 1 (CombatPhases.ts:76).
- The stat input components, chart and table rendering, the React hook, formatting helpers and constants other than the stat and iteration ranges are outside the engine and are not modelled.

## Findings

| source | as written | input that shows it | evidently intended | confidence | as-written member | corrected member |
|---|---|---|---|---|---|---|
| src/engine/DiceRoller.ts:19-20 | the generator step uses JavaScript's `%`, which keeps the dividend's sign, so a negative seed gives a negative state | seed −1: state −1103502900, first roll −3 | every state in [0, 2^31) and every roll a face from 1 to 6 | not executed | Dice.NegativeSeedRollsOutOfRange | Dice.LcgRolls |
| src/engine/ConquestSimulator.ts:87-93 | `defensePhase` receives the whole attack result as `incomingHits`; the object converts to NaN, so no defense dice are drawn and `hitsRemaining` is NaN | any attacker and defender: damage dealt and stands killed are NaN in every combat, morale wounds 0 | pass `attackResult.hits`, so damage is the unblocked hits | not executed | Simulator.AttackResultAsHitCount | Simulator.TrialFacts |
