# pm-simulator engine, modelled in Dafny

This project models the simulation engine of the PM simulator game, a game about sprint planning.

- A game keeps nine metrics:
  - eight gauges bounded to [0, 100]: team, CEO, sales and CTO sentiment, self-serve and enterprise growth, tech debt and NPS;
  - a velocity counter, which is not bounded.
- Each sprint the player commits tickets from a generated backlog.
- The engine rolls an outcome for each ticket and applies the ticket's metric impacts.
- Every random choice goes through a seeded Mulberry32 generator. That makes a sprint reproducible from the stored seed.

The model covers these parts:

- **the generator** (`createRng`, `rng.dfy`).
  - It is a class with a `bv32` state.
  - The ghost fields record the seed and the number of draws.
  - Lemmas prove that a generator rebuilt from the persisted signed state continues the same stream.
- **the capacity model** (`computeEffectiveCapacity`, `capacity.dfy`).
- **the CEO focus controller** (`selectCeoFocus`, `focusToCategory`, `isCeoAlignedCategory`, `shouldShiftFocus`, `focus.dfy`).
- **the product pulse** (`deriveProductPulse`, `pulse.dfy`).
- **the review scorer** (`computeQuarterlyReview`, `computeYearEndReview`, `review.dfy`).
- **the backlog generator** (`generateBacklog`, `backlog.dfy`). It is modelled as methods over sequences and id sets, with one method per phase and loop of the source.
- **the outcome resolver** (`rollOutcome`, `outcome.dfy`) and the weighted roulette behind it and behind the other weighted draws (`roulette.dfy`).
- **the metric impact engine** (`applyOutcome`, `impact.dfy`).
  - Every change goes through the single clamp-and-record step of `applyDelta`.
  - The method returns the log of the requests it made, and the lemmas about replaying a log say what the metrics can do.
- **new-game setup** (`initial.ts`, `initial.dfy`).
  - This covers the randomised starting metrics with their bounded retry loop, the target tables and the new game record.
  - `Math.random` is an input: a sequence of draws in [0, 1).
- **the in-memory resolution of a sprint commit** (`commit.dfy`).
  - First the selection filter and the capacity check.
  - Then the per-ticket roll-and-apply loop, which threads the metrics and one generator.
  - Then the overbooking penalty, the delta aggregation, the success count and the next sprint number.

The models follow these conventions:

- Numbers are exact: `int` for metric values, efforts and deltas, and `real` for weights, fractions and scales.
- `Math.round(x)` is `floor(x + 1/2)`.
- `next()` is represented by its 32-bit numerator `u`, whose value is `u / 2^32`.
- `int(min, max)` is `floor(u * (max - min + 1) / 2^32) + min`.

Some observations about the code:

- `rollOutcome` caps the failure weights' rise first and only then floors every weight at 2. `Outcomes.ClampKeepsCap` shows the floor cannot undo the cap.
- The normal-difficulty base metrics, before they are randomised, give capacity 21: with team 60, debt 35 and CTO 50, team sentiment 60 lies in the +1 band (`Capacity.CapacityOfNormalDefaults`). A randomised start can differ: normal team sentiment is drawn from [45, 75], and a team below 50 loses 2.
- The impact scale's clamp to [0.7, 1.5] never takes effect at the top: `1 + next()*0.6 - 0.3` lies in [0.7, 1.3) (`Impacts.ImpactScale`).
- The backlog's last fill loop stops as soon as the randomly drawn category has no unused ticket. The catalog need not be exhausted at that point (`Backlog.FillByWeight`).
- The quarterly low-morale penalty applies when the caller's `lowTeamSprints` count is at least 2. The count is an input, and no threshold on team sentiment is applied inside the engine.
- The commit route passes no overbook fraction, so overbooking always counts in full (`Commit.TicketContext`). It always passes `ceoAligned = false`, so CEO alignment never shifts an outcome.
- The overbooking penalty records -5 (or -10) in the team-sentiment delta even when the clamp at 0 absorbs part of it.
- Clamping the randomised starting metrics never changes a value: every attempt already lies in [0, 100] (`Initial.AttemptInGauges`).
- The retry loop of `createInitialMetrics` never retries. Every attempt passes the ±25% balance test, because the widest swing `randomize` allows (111, 97 and 90 points for easy, normal and hard) is below a quarter of the base score (126.25, 107.5 and 95). The model keeps the loop as written and proves that it stops after the first attempt (`Initial.AlwaysWithinTolerance`, `Initial.CreateInitialMetrics`).
- The generator state `Commit.CommitSprint` returns is the state right after the ticket loop. The route then draws the next sprint's backlog size and backlog from the same generator (route.ts lines 210-215) and persists the state after those draws (line 238); that part is left out with the other persistence code.
- Capacity collapse, scripted events, the condition language and quarter advancement are not present in the engine's code, so they are not modelled.

## Model

| member | source | states |
|---|---|---|
| Types.Round | src/lib/game/simulate.ts:753-754 | `Math.round`: the result is within one half of `x` (halves round up) |
| Types.ClampMetric | src/lib/game/simulate.ts:722 | the clamp to [0, 100]: the result is in range, equals the value when it is already in range, and is 0 below and 100 above |
| Types.Metrics.Set | src/lib/game/simulate.ts:742 | writing one metric changes that metric to the value and leaves the other eight unchanged |
| Random.Fraction | src/lib/game/simulate.ts:81 | `next()` lies in [0, 1) |
| Random.Scale | src/lib/game/simulate.ts:85 | `int(min, max)` lies in [min, max] whenever min <= max |
| Random.Index | src/lib/game/simulate.ts:86 | the index `pick` uses is a valid index of the non-empty list |
| Random.Signed | src/lib/game/simulate.ts:75-78 | the state, read as the source keeps it, is a signed 32-bit value |
| Random.AdvanceNAdd | src/lib/game/simulate.ts:78 | j draws followed by k draws reach the same state as j + k draws |
| Random.OutputsResume | src/lib/game/simulate.ts:77-82 | the output stream from a state is its first j outputs followed by the stream from the state after those j draws |
| Random.SignedRoundTrip | src/lib/game/simulate.ts:76-87 | re-seeding with the signed state gives back exactly the same 32-bit state |
| Random.Rng.constructor | src/lib/game/simulate.ts:74-76 | a new generator's state is the low 32 bits of the seed, with no draws taken |
| Random.Rng.State | src/lib/game/simulate.ts:87 | `state()` is a signed 32-bit value, and seeding with it restores the current state |
| Random.Rng.Next | src/lib/game/simulate.ts:77-82 | each draw adds 0x6d2b79f5 modulo 2^32 to the state and returns the mix of the new state; the state stays on the seed's stream, one draw further |
| Random.Rng.Int | src/lib/game/simulate.ts:85 | one draw; the result is the scaled draw and lies in [min, max] when min <= max |
| Random.Rng.Pick | src/lib/game/simulate.ts:86 | one draw; the result is the element at the scaled index, so it is an element of the list |
| Random.ResumeFromState | src/lib/game/simulate.ts:74-89 | after j draws from a seed, a generator seeded with `state()` produces exactly the rest of the original stream |
| Roulette.Roll | src/lib/game/simulate.ts:701 | `next() * total` lies in [0, total) for a positive total |
| Roulette.SelectInRange | src/lib/game/simulate.ts:701-708 | for a non-empty list and a roll no greater than the total, the roulette stops inside the list, so the fallback is never reached |
| Roulette.SelectIsFirst | src/lib/game/simulate.ts:703-707 | the selected index is the first one whose running sum reaches the roll |
| Roulette.Spin | src/lib/game/simulate.ts:703-707 | the accumulating loop returns the index the roulette specification selects |
| Capacity.EffectiveCapacity | src/lib/game/simulate.ts:91-110 | the effective capacity always lies in [8, 30] |
| Capacity.CapacityMonotone | src/lib/game/simulate.ts:91-110 | capacity does not decrease as team or CTO sentiment rises or as tech debt falls |
| Capacity.CapacityDependsOnThree | src/lib/game/simulate.ts:91-94 | capacity depends only on team sentiment, tech debt and CTO sentiment |
| Capacity.CapacityOfNormalDefaults | src/lib/game/simulate.ts:95-109 | team 60, debt 35 and CTO 50 give capacity 21 |
| Capacity.CapacityAtBest | src/lib/game/simulate.ts:95-109 | team 80, debt 10 and CTO 85 give capacity 30 |
| Focus.FocusWeights | src/lib/game/simulate.ts:113-123 | three focus weights, each at least 30, with a total of at least 100 |
| Focus.FocusForInRange | src/lib/game/simulate.ts:123-129 | the focus roulette always stops at one of the three foci, so the `self_serve` fallback is never reached |
| Focus.SelectCeoFocus | src/lib/game/simulate.ts:112-130 | one draw; the focus is the roulette choice over the weights for that draw |
| Focus.IsCeoAlignedCategory | src/lib/game/simulate.ts:138-145 | a category is aligned with a focus exactly when it is in that focus's aligned set |
| Focus.FocusAlignsWithOwnCategory | src/lib/game/simulate.ts:132-145 | every focus is aligned with its own category |
| Focus.FocusToCategoryInjective | src/lib/game/simulate.ts:132-136 | different foci map to different categories |
| Focus.FocusToCategory | src/lib/game/simulate.ts:132-136 | the category a focus maps to is one that focus counts as aligned |
| Focus.CrossAlignments | src/lib/game/simulate.ts:138-145 | `sales_request` is aligned only under `enterprise` and `infrastructure` only under `tech_debt`; UX, monetization and moonshot tickets are never aligned |
| Focus.ShiftChance | src/lib/game/simulate.ts:148-149 | the drift chance is a probability strictly between 0 and 1 |
| Focus.ShiftChanceOrdered | src/lib/game/simulate.ts:148-149 | the drift chance rises strictly from easy to normal to hard |
| Focus.ShouldShiftFocus | src/lib/game/simulate.ts:147-151 | one draw; the focus shifts exactly when the drawn fraction is below the difficulty's chance |
| Pulse.DeriveProductPulse | src/lib/game/simulate.ts:153-186 | churn is positive iff NPS > 60 and a growth line > 50, concerning iff NPS < 35 or both growth lines < 30; support load is positive iff debt < 40 without a catastrophe, concerning iff debt > 65 or a catastrophe; customer sentiment is positive iff NPS > 60 after a UX success, concerning iff NPS < 35 |
| Review.UnhappyStakeholders | src/lib/game/simulate.ts:274-280 | the count is the number of team, CEO, sales and CTO sentiments below 40 |
| Review.Unhappy | src/lib/game/simulate.ts:274-280 | the filtered list holds exactly the given stakeholders whose sentiment is below 40 |
| Review.BaseRatingMonotone | src/lib/game/simulate.ts:307-314 | a higher score never gets a lower base rating |
| Review.ComputeQuarterlyReview | src/lib/game/simulate.ts:188-352 | the factors are the bands of the metrics, pulse, catastrophe count and context (`FactorsOf`), the crisis penalty from the unhappy count; the raw score is their clamped total in [0, 100]; 2+ unhappy stakeholders force `below_expectations`; otherwise critical debt with low morale turns a `strong` or `solid` band into exactly `mixed` and keeps a lower band; otherwise the rating is the score's band; the rating never exceeds the band |
| Review.PadScores | src/lib/game/simulate.ts:359-360 | exactly four scores: the first four given, padded with 50 |
| Review.Spread | src/lib/game/simulate.ts:368 | the range is non-negative and bounds every difference of two scores |
| Review.Raise | src/lib/game/simulate.ts:394-398 | the floors only raise the modifier: to at least -3 at composite >= 90 and to at least -6 at >= 80; below 80 the modifier is unchanged |
| Review.Modifier | src/lib/game/simulate.ts:384-398 | the calibration modifier lies in the difficulty's range and respects the floors |
| Review.HighCompositeExceeds | src/lib/game/simulate.ts:394-413 | a composite of at least 90 always yields `exceeds_expectations` |
| Review.YearEndFor | src/lib/game/simulate.ts:359-420 | the review keeps the four scores, reports the rounded composite and a modifier in the difficulty's range; the final score is the reported composite plus the modifier, clamped to [0, 100], and the rating is its tier |
| Review.RoundShift | src/lib/game/simulate.ts:399-402 | rounding after adding a whole modifier equals adding it after rounding |
| Review.FlatNinetiesComposite | src/lib/game/simulate.ts:362-417 | scores [90, 90, 90, 90] give trajectory 50, consistency 85, composite 78.75, raw composite 79 and a final score of at least 67 on any difficulty |
| Review.YearBonuses | src/lib/game/simulate.ts:364-379 | the reassigned trajectory and consistency bonuses equal their banded definitions |
| Review.Calibrate | src/lib/game/simulate.ts:394-398 | the reassigned modifier equals the floored modifier |
| Review.ComputeYearEndReview | src/lib/game/simulate.ts:354-423 | one draw; four padded scores; the review is the one specified for that draw; the final score is in [0, 100] and the modifier is in the difficulty's range |
| Outcomes.OverbookFraction | src/lib/game/simulate.ts:636-639 | the overbook fraction is clamped to [0, 1] and defaults to 1 or 0 from the overbooked flag |
| Outcomes.UnderbookFraction | src/lib/game/simulate.ts:648-651 | the underbook fraction is clamped to [0, 0.5] and defaults to 0 |
| Outcomes.ModifiedSum | src/lib/game/simulate.ts:609-676 | the modified weights are the base plus the seven modifier groups, in the source's order |
| Outcomes.ApplyModifiers | src/lib/game/simulate.ts:609-676 | the mutated weight record equals the modified weights |
| Outcomes.ApplyStateModifiers | src/lib/game/simulate.ts:611-634 | alignment, debt and team adjustments are added to the base |
| Outcomes.ApplyBookingModifiers | src/lib/game/simulate.ts:640-657 | the overbook and underbook adjustments are added, scaled by their fractions |
| Outcomes.ApplyTicketModifiers | src/lib/game/simulate.ts:659-676 | the moonshot and difficulty adjustments are added |
| Outcomes.CapFailures | src/lib/game/simulate.ts:678-689 | after the cap, the failure weights' combined rise above base is at most 6, and exactly 6 when it was over; nothing changes when it was within; success and unexpected weights are untouched; a failure weight not above its base keeps its value |
| Outcomes.ClampWeights | src/lib/game/simulate.ts:699 | every clamped weight is at least 2 |
| Outcomes.ClampKeepsCap | src/lib/game/simulate.ts:678-699 | the floor of 2 does not change the failure weights' rise above base, so the cap still holds |
| Outcomes.FinalWeightsSound | src/lib/game/simulate.ts:678-700 | final weights are each at least 2, total at least 10, and keep the failure rise within 6 |
| Outcomes.ClampedTotal | src/lib/game/simulate.ts:699-700 | the clamped total is at least 10, so it is positive |
| Outcomes.RollNeverFallsThrough | src/lib/game/simulate.ts:700-708 | the roll always lands on one of the five outcomes; the `partial_success` fallback is unreachable |
| Outcomes.OutcomeFor | src/lib/game/simulate.ts:691-708 | the total weight is at least 10, and the outcome is the one whose cumulative weight band holds the roll (never the fallback) |
| Outcomes.SpinOutcome | src/lib/game/simulate.ts:691-708 | the loop returns the outcome at the selected index, or the fallback past the end |
| Outcomes.RollOutcome | src/lib/game/simulate.ts:600-709 | one draw; the outcome is the roulette choice over the final weights for that draw |
| Impacts.ReplayDeltas | src/lib/game/simulate.ts:740-744 | each recorded delta is the sum of the requested, pre-clamp deltas for that metric |
| Impacts.ApplyDelta | src/lib/game/simulate.ts:740-744 | a zero delta changes nothing; otherwise the metric ends in [0, 100]; its recorded delta grows by the request; every other metric and delta is unchanged |
| Impacts.Stakeholder | src/lib/game/simulate.ts:711-720 | the stakeholder is CEO, sales, CTO or team sentiment, and it is the team exactly for UX improvements |
| Impacts.ReplayRecords | src/lib/game/simulate.ts:740-744 | for every metric at once: it has a recorded delta iff it was touched, and that delta is the sum requested |
| Impacts.ReplayKeys | src/lib/game/simulate.ts:740-744 | a metric has a recorded delta exactly when some non-zero change of it was requested |
| Impacts.ReplayUntouched | src/lib/game/simulate.ts:740-744 | a metric with no non-zero request is unchanged |
| Impacts.ReplayKeepsRange | src/lib/game/simulate.ts:740-744 | a metric that starts in [0, 100], or is touched, ends in [0, 100] |
| Impacts.ReplayKeepsGauges | src/lib/game/simulate.ts:737-744 | if every gauge starts in [0, 100], every gauge ends in [0, 100] |
| Impacts.ReplayOnlyLowers | src/lib/game/simulate.ts:740-744 | only negative requests on a metric never raise it, and its recorded delta is negative |
| Impacts.ApplyAll | src/lib/game/simulate.ts:740-744 | applying the requests one by one gives the replay of the log |
| Impacts.ImpactScale | src/lib/game/simulate.ts:749-750 | the impact scale is `0.7 + 0.6 * next()`, which lies in [0.7, 1.3) |
| Impacts.ScaleKeepsSign | src/lib/game/simulate.ts:753-754 | at a scale of at least 0.8, a rounded scaled delta of 2 or more stays at least 2, and one of -2 or less stays at most -2 |
| Impacts.Without | src/lib/game/simulate.ts:813 | the filtered metric list holds exactly the other metrics |
| Impacts.OtherGaugesExist | src/lib/game/simulate.ts:803-813 | the list `pick` chooses the swung metric from is never empty |
| Impacts.ImpactDraws | src/lib/game/simulate.ts:758-871 | the draws an outcome takes after the impact scale are fixed by the outcome and the ticket: 1 to 4 for a success (one per range whose bounds differ, plus the bonus), 4 or 5 for an unexpected impact, 3 or 4 for a soft failure, 6 or 7 for a catastrophe |
| Impacts.ApplyRange | src/lib/game/simulate.ts:724-729 | no range gives 0 and takes no draw; equal bounds give that bound and take no draw; otherwise exactly one draw, and the value is `int(min, max)` of it, inside a well-formed range |
| Impacts.ScaledDraw | src/lib/game/simulate.ts:799-802 | one draw; the result is some draw of the range, scaled and rounded; at a scale of at least 0.8 a positive (negative) range gives at least 2 (at most -2) |
| Impacts.SuccessRequests | src/lib/game/simulate.ts:758-796 | exactly the success draws; the changes move the primary metric, the secondary and trade-off metrics when the ticket has them, then the stakeholder, in that order; primary and secondary are scaled values of their ranges, the trade-off a value of its range scaled by effort and impact; the stakeholder bonus is a scaled draw of 4-8 (2-4 for partial), at least 2 |
| Impacts.SuccessAssembled | src/lib/game/simulate.ts:768-796 | the primary change, the middle changes and the bonus, one after the other, have the shape of a success at that scale |
| Impacts.MetricsOfAppend | src/lib/game/simulate.ts:740-744 | the metrics of two logs one after the other are the metrics of each, in order |
| Impacts.SuccessMiddle | src/lib/game/simulate.ts:775-789 | one draw per present range whose bounds differ; the secondary change comes first when present, the trade-off change last when present, each drawn from its range and scaled |
| Impacts.BonusDraw | src/lib/game/simulate.ts:791-795 | one draw; the bonus is a draw of 4-8 (clear) or 2-4 (partial) scaled by at least 1, so at least 2 |
| Impacts.SwingDraw | src/lib/game/simulate.ts:814-815 | two draws; the swing is a scaled draw of 6-14 or of -14 to -6, so at least 2 away from zero |
| Impacts.UnexpectedRequests | src/lib/game/simulate.ts:798-822 | four draws, five with a trade-off; the changes move the primary metric, then another gauge, then the trade-off metric when the ticket has one; the primary change is a scaled draw of -4 to 6, the swing one of 6-14 or -14 to -6, the trade-off dip one of -5 to -2 and at most -2 |
| Impacts.OtherGauge | src/lib/game/simulate.ts:803-813 | one draw; the swung gauge is one of the eight gauges and not the primary metric |
| Impacts.SoftFailureRequests | src/lib/game/simulate.ts:824-840 | three draws, four when the stakeholder is not the team; the changes move the primary metric, team sentiment and tech debt, then the stakeholder unless it is the team; each is a scaled draw of its range (-6..-2, -9..-5, 2..5, -4..-2); every change except tech debt is at most -2, and tech debt rises by at least 2 |
| Impacts.CatastropheDraws | src/lib/game/simulate.ts:842-864 | six draws; the five scaled catastrophe draws come from their ranges (-18..-10, -16..-8, -12..-6, 5..10, -10..-5), the collateral gauge from sales, CTO, self-serve, enterprise and NPS; four are at most -2, the debt draw at least 2 |
| Impacts.CatastropheRequests | src/lib/game/simulate.ts:842-871 | six draws, seven when the stakeholder is neither team nor CEO; the changes move the primary metric, team, CEO, tech debt and a collateral gauge, then the stakeholder unless it is team or CEO; each is a scaled draw of its range; every change except tech debt is at most -2, and tech debt rises by at least 2 |
| Impacts.FailureOnlyLowers | src/lib/game/simulate.ts:824-871 | after a failure, every metric other than tech debt is no higher, and its recorded delta is negative |
| Impacts.ApplyOutcome | src/lib/game/simulate.ts:731-874 | one draw for the impact scale and then exactly the outcome's draws; the result is the replay of the requests it made; the requests move exactly the metrics the outcome names, in order, each drawn from its range at the outcome's scale (`Drawn`), where the impact scale is `0.7 + 0.6 * next()` of the stream's next draw; the drawn gauge is another gauge for an unexpected impact and a collateral gauge for a catastrophe; success ends by raising the stakeholder by at least 2; a failure lowers everything but tech debt, which it raises |
| Impacts.PlanOutcome | src/lib/game/simulate.ts:746-874 | exactly the outcome's draws; the requests are drawn at the impact scale for successes, at the impact scale + 0.1 for an unexpected impact and at + 0.2 for failures (`Drawn`), and move the metrics the outcome names with the signs it promises (`Planned`) |
| Backlog.CategoriesOf | src/lib/game/simulate.ts:431-438 | the category list holds each catalog category once, and nothing else |
| Backlog.InCategory | src/lib/game/simulate.ts:431-436 | a category's pool holds exactly the catalog templates of that category |
| Backlog.GroupByCategory | src/lib/game/simulate.ts:431-438 | the grouping loop yields the categories and a pool per category; no categories iff an empty catalog; no empty pool |
| Backlog.Uniform | src/lib/game/simulate.ts:441-444 | every category starts at weight 1, total = number of categories |
| Backlog.Bump | src/lib/game/simulate.ts:447-450 | raising one category's weight (adding it when absent) changes only that weight and the total by the amount |
| Backlog.BumpIf | src/lib/game/simulate.ts:446-475 | a conditional raise changes only that category's weight and only when the condition holds |
| Backlog.CategoryWeights | src/lib/game/simulate.ts:441-475 | the weight map starts with the catalog's categories in order |
| Backlog.CategoryWeightOf | src/lib/game/simulate.ts:441-475 | each category's weight is 1 if in the catalog, plus its boost |
| Backlog.BoostValues | src/lib/game/simulate.ts:446-475 | the boosts: +2 for sales below 45, debt above 55, enterprise or self-serve growth below 45; +1 for NPS below 45 |
| Backlog.CategoryWeightsTotal | src/lib/game/simulate.ts:478 | the total weight is the category count plus the five boosts, positive for a non-empty catalog |
| Backlog.PickCategory | src/lib/game/simulate.ts:477-485 | one draw; the category is one of the weighted ones or the first category |
| Backlog.Guarantees | src/lib/game/simulate.ts:490-505 | at most five guarantees, the first being self-serve when self-serve growth is below 45 |
| Backlog.GuaranteesExactly | src/lib/game/simulate.ts:490-505 | a category is guaranteed exactly when its metric lags |
| Backlog.FirstUnused | src/lib/game/simulate.ts:517 | the fallback is the first unused template of the pool, and is missing exactly when all are used |
| Backlog.PickUnique | src/lib/game/simulate.ts:509-521 | the retried pick is an unused template of the pool, and is missing exactly when the pool is all used |
| Backlog.PickUniqueFromCategory | src/lib/game/simulate.ts:507-522 | the pick is an unused template of the category's pool (the whole catalog for an unknown category), missing exactly when that pool is used up |
| Backlog.Sized | src/lib/game/simulate.ts:534-536 | the size pool holds exactly the unused templates within the effort bounds |
| Backlog.PickBySize | src/lib/game/simulate.ts:533-539 | the pick is an unused template within the effort bounds, missing exactly when none is left |
| Backlog.AddGuaranteed | src/lib/game/simulate.ts:524-530 | the guarantee loop keeps the picks distinct, from the catalog and within count; each pick comes from the pool of its own guarantee, at most one per guarantee and in guarantee order; the first guarantee's category comes first |
| Backlog.FillBySize | src/lib/game/simulate.ts:551-557 | a size loop keeps the picks distinct and within count, only appends, and appends only tickets of the size; it stops when the count of the size reaches the target, the backlog is full, or no unused ticket of the size is left |
| Backlog.BalanceSizes | src/lib/game/simulate.ts:541-575 | the three size loops keep the picks distinct and within count and only append |
| Backlog.FillByWeight | src/lib/game/simulate.ts:578-584 | the weighted fill keeps the picks distinct and within count, only appends, and leaves at least one pick when count >= 1; it stops only when the backlog is full or a drawn category's pool is used up |
| Backlog.PlanBacklog | src/lib/game/simulate.ts:431-505 | grouping, weights and guarantees as specified; positive total for a non-empty catalog; self-serve first when it lags and exists |
| Backlog.PickBacklog | src/lib/game/simulate.ts:487-586 | the picks are distinct, from the catalog, within count, non-empty when count >= 1, and led by the first guarantee's category |
| Backlog.SelfServeGuaranteed | src/lib/game/simulate.ts:490-493 | lagging self-serve growth with a self-serve template makes self-serve the first guarantee, and it has a pool |
| Backlog.GenerateBacklog | src/lib/game/simulate.ts:425-587 | an empty catalog yields [] with no draw; otherwise at most count tickets, distinct ids, each a catalog template, at least one when count >= 1, self-serve first when it lags |
| Commit.BacklogMap | src/app/api/sprint/commit/route.ts:83 | the id map holds exactly the backlog's ids, each mapped to a backlog ticket with that id |
| Commit.LastWins | src/app/api/sprint/commit/route.ts:83 | for a repeated id the map keeps the last ticket |
| Commit.SelectTickets | src/app/api/sprint/commit/route.ts:84-86 | the selection is no longer than the request, empty exactly when no id is known, and holds backlog tickets only |
| Commit.SelectConcat | src/app/api/sprint/commit/route.ts:84-86 | selecting is done id by id, in request order |
| Commit.SelectUnknown | src/app/api/sprint/commit/route.ts:84-86 | an unknown id is dropped |
| Commit.SelectAllKnown | src/app/api/sprint/commit/route.ts:84-86 | with every id known, the selection is the requested tickets in order, repeats kept |
| Commit.MaxCapacity | src/app/api/sprint/commit/route.ts:102 | `floor(1.25 * capacity)` is `(5 * capacity) / 4`, never below a non-negative capacity |
| Commit.CapacityOf | src/app/api/sprint/commit/route.ts:99-101 | the stored capacity is used; when none is stored, the computed one lies in [8, 30] |
| Commit.TicketContext | src/app/api/sprint/commit/route.ts:120-127 | the outcome context never applies CEO alignment, counts overbooking in full, has no underbooking, and marks moonshots |
| Commit.ThreadKeepsGauges | src/app/api/sprint/commit/route.ts:119-130 | threading the metrics through the tickets keeps all gauges in [0, 100] |
| Commit.Merge | src/app/api/sprint/commit/route.ts:136-138 | merging adds the deltas per key over the union of keys |
| Commit.AddDeltas | src/app/api/sprint/commit/route.ts:136-138 | the key-by-key loop yields the merge |
| Commit.AggregateSums | src/app/api/sprint/commit/route.ts:136-138 | the aggregated delta of a metric is the sum of the per-ticket deltas, present iff some ticket recorded it |
| Commit.ResultsSnoc | src/app/api/sprint/commit/route.ts:132-138 | one more ticket merges its deltas into the aggregate and sets the failure flag iff it failed |
| Commit.Entry | src/app/api/sprint/commit/route.ts:140-146 | a ticket's outcome record carries that ticket, and its deltas record exactly the metrics its changes touched, each with the sum requested |
| Commit.ResolveTicket | src/app/api/sprint/commit/route.ts:119-146 | the outcome is rolled from the very next draw, then come the impact scale's draw and exactly that outcome's draws; the record is the specified entry of the ticket at that position; the changes are exactly those of the rolled outcome (`Planned`), drawn at the scale of the draw after the roll (`Drawn`), and the metrics advance by them |
| Commit.ResolveNext | src/app/api/sprint/commit/route.ts:119-146 | one pass of the loop keeps `Resolved` one ticket further: the record, its changes tied to its outcome and to the stream, the merged deltas and the failure flag |
| Commit.ResolveSprint | src/app/api/sprint/commit/route.ts:111-147 | one record per ticket, in order, each rolled after the earlier tickets' changes on one seeded stream; ticket j rolls from the draw right after the draws of the tickets before it, and the count of draws is exact (`Walk`); every ticket's changes are those of its own outcome (`AllPlanned`), drawn at the scale of the draw after its roll (`AllDrawn`), and the metrics are those changes applied in turn; aggregate and failure flag as specified; the persisted state resumes the stream |
| Commit.Draws | src/app/api/sprint/commit/route.ts:119-146 | each ticket takes at least three draws and at most nine: its roll, its impact scale and its outcome's draws |
| Commit.WalkPositions | src/app/api/sprint/commit/route.ts:111-147 | read off the walk: ticket j rolls its outcome from draw `Draws(results[..j]) + 1`, and the draws taken are `Draws(results)` |
| Commit.PenaltyStopsAtZero | src/app/api/sprint/commit/route.ts:149-161 | the two clamped -5 steps equal one step by the whole penalty, stopped at 0 |
| Commit.PenalizedTeam | src/app/api/sprint/commit/route.ts:149-161 | no penalty without overbooking; with it, team sentiment ends in [0, 100] and no higher than it started |
| Commit.ApplyPenalty | src/app/api/sprint/commit/route.ts:149-161 | team sentiment gets the penalty and its delta -5 or -10 when overbooked; every other metric and delta is unchanged |
| Commit.CountSuccesses | src/app/api/sprint/commit/route.ts:164-168 | successes are the clear, partial and unexpected outcomes among the results |
| Commit.CountFailures | src/app/api/sprint/commit/route.ts:169 | failures are the soft-failure and catastrophe outcomes among the results |
| Commit.OutcomesOf | src/app/api/sprint/commit/route.ts:164-169 | the outcomes of the results, in order |
| Commit.SuccessesAndFailures | src/app/api/sprint/commit/route.ts:163-169 | successes + failures = total, and some failure exists iff a ticket failed |
| Commit.EveryTicketCounted | src/app/api/sprint/commit/route.ts:163-169 | every ticket counts as a success or a failure |
| Commit.FailuresCounted | src/app/api/sprint/commit/route.ts:169 | the failure count is positive iff some ticket failed |
| Commit.NextSprint | src/app/api/sprint/commit/route.ts:186-187 | the sprint advances below 3 and stays at 3, never exceeding 3 |
| Commit.CommitSprint | src/app/api/sprint/commit/route.ts:82-187 | rejected iff no known id, or iff effort exceeds `floor(1.25 * capacity)`; otherwise every outcome is the roll of its ticket at its exact stream position in the metrics the earlier tickets left, every ticket's changes are those of its own outcome drawn at the scale of the draw after its roll, the metrics are those changes followed by the overbooking penalty, the generator state is the seed's stream after the loop's draws; counts, aggregated deltas plus the penalty, quarter kept, next sprint, and gauges kept in range |
| Commit.DeltasAreSums | src/app/api/sprint/commit/route.ts:136-138 | the aggregated deltas are, metric by metric, the sums of the tickets' deltas |
| Commit.PenaltyKeepsGauges | src/app/api/sprint/commit/route.ts:119-161 | the tickets' changes and then the penalty keep every gauge in [0, 100] |
| Initial.BaseMetrics | src/lib/game/initial.ts:3-37 | base values are within [0, 70], with velocity 20 |
| Initial.Ceil | src/lib/game/initial.ts:46 | `Math.ceil`: the least integer not below x |
| Initial.Randomize | src/lib/game/initial.ts:43-48 | a randomised value lies in [floor(0.75 v), ceil(1.25 v)] |
| Initial.RandomizeStaysInGauge | src/lib/game/initial.ts:43-48 | a base of at most 80 randomises into [0, 100] |
| Initial.AttemptAt | src/lib/game/initial.ts:72-82 | an attempt keeps the base velocity |
| Initial.AttemptBounds | src/lib/game/initial.ts:72-82 | each gauge of an attempt lies in the randomise bounds of its base value |
| Initial.AttemptInGauges | src/lib/game/initial.ts:94-105 | every attempt is already within [0, 100], so the clamp leaves it unchanged |
| Initial.ClampGauges | src/lib/game/initial.ts:94-105 | the clamped record is in range, keeps velocity, and is unchanged when already in range |
| Initial.SwingWithinQuarter | src/lib/game/initial.ts:3-37 | at each difficulty the extreme scores an attempt can reach lie within a quarter of the base score |
| Initial.AlwaysWithinTolerance | src/lib/game/initial.ts:43-85 | every attempt passes the tolerance test |
| Initial.ScoreBetween | src/lib/game/initial.ts:43-85 | every attempt scores between the lowest and highest score `randomize` allows |
| Initial.RejectedExtend | src/lib/game/initial.ts:84-91 | the rejected prefix grows by one exactly when the next attempt fails the test |
| Initial.NeverRejected | src/lib/game/initial.ts:68-92 | no attempt is ever rejected, so the loop stops at the first attempt |
| Initial.Retry | src/lib/game/initial.ts:68-92 | fewer than 100 attempts; all earlier attempts rejected; an early exit is within tolerance |
| Initial.Settled | src/lib/game/initial.ts:68-105 | the retry's outcome, stated over the draws used: earlier attempts rejected, an early stop within tolerance, the last attempt clamped |
| Initial.CreateInitialMetrics | src/lib/game/initial.ts:39-106 | between 1 and 100 attempts; every earlier attempt was out of tolerance; an early stop is within tolerance; the result is the clamped last attempt, all gauges in range, velocity 20; in fact exactly one attempt is made and returned unclamped |
| Initial.StretchTargets | src/lib/game/initial.ts:144-178 | stretch targets are at least the meets targets, except tech debt, which is strictly lower |
| Initial.TargetsByDifficulty | src/lib/game/initial.ts:108-178 | non-debt targets fall from easy to hard; tech-debt targets rise; in both tables |
| Initial.MetricTargets | src/lib/game/initial.ts:108-142 | the tech-debt target is below every other target, and team and CEO targets are the highest |
| Initial.SeedFrom | src/lib/game/initial.ts:192 | the seed lies in [0, 999999] |
| Initial.CreateNewGameRecord | src/lib/game/initial.ts:180-195 | quarter 1, sprint 1, in progress, empty log, the first attempt's metrics (in range, velocity 20), seed from the ninth draw in [0, 999999], targets of the difficulty |

## Left out

- Narrative strings (`narrative`, `outcome_narrative`, the retro text) and the `toFixed(2)` display of the alignment ratio: only the values are modelled.
- The database reads and writes of the commit route (loading the game and the sprint, saving the retro and the game, lines 29-80 and 178-241), including the next sprint's backlog generation and its size draw there: persistence is outside the engine.
- IEEE-754 floating point: all arithmetic is exact over `int` and `real`.
- `Math.random`: it becomes an input sequence of draws in [0, 1) (eight per retry attempt, one for the seed); no distribution is modelled.
- Ticket titles, descriptions, outcome texts and other display fields of a template are not part of `Template`.
- Commit.ResolveSprint: pins every roll and every impact scale to its draw of the stream, and ties every ticket's changes to its outcome (the metrics moved in order, the gauge drawn, the range and scale of each change, the signs); which value of its range each change takes is not tied to the stream, as for Impacts.ApplyOutcome.
- Commit.CommitSprint: inherits the same limit from Commit.ResolveSprint; which value of its range each change takes is not tied to the stream.
- Impacts.ApplyOutcome: states the number of draws, the impact scale as a function of the stream's next draw, and every change as some value of its range at the outcome's scale; which value of the range each change takes is not tied to the stream's later draws (the builders state it as a draw of the range, not as a function of the stream state).
- Backlog.PickCategory: states that the category comes from the weight map (or is the first category), not which category the roulette draw selects.
- Backlog.PickUnique: does not state that the fallback after five retries is the first unused template of the pool (`FirstUnused` states that on its own).
- Backlog.BalanceSizes: does not state that the size targets are met; the source does not promise that either, since a loop stops when no ticket of the size is left.
- Backlog.Guarantees: does not state that the guarantee list has no repeated category.
- Initial.CreateInitialMetrics: the tolerance test is on exact reals; the `Math.random` draws come from the input sequence.
- Review.ComputeQuarterlyReview: the alignment ratio is kept exact rather than rounded to two decimals in `factors`.
- The new-game, session and active-sprint routes and the UI components are not part of this model.
