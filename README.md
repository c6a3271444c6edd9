# AccrueSmart revenue recognition, modelled in Dafny

AccrueSmart is an accounting back end for ASC 606 revenue recognition. It
allocates a contract's transaction price across its performance obligations
by relative stand-alone selling price (SSP). It turns each obligation's
allocation into a monthly revenue schedule (straight line, point in time,
milestones, percent complete, the revenue-code rules). It posts the result
to a journal ledger, summarises it for disclosure, and books a cumulative
catch-up when a contract is modified. Beside that core sit calculators:
variable consideration (returns and loyalty), capitalised contract costs,
prepaid expenses, ASC 842 lease schedules and journals, ASC 740 deferred
tax, multi-entity consolidation with FX translation, an effective-interest
schedule, an audit summary and three rule-based contract readers.

The model works with these conventions:

- **Money** is an integer number of cents.
- **Rates and percentages** are exact `real`s.
- **Rounding.** Python's `round(x, 2)` on dollars becomes `Money.RoundHalfEven` on cents, which rounds half to even.
- **Periods.** A `"YYYY-MM"` period key becomes a month index `year * 12 + month - 1`. Module `PeriodKeys` proves that the zero-padded text compares and equates exactly as the index does, so ordering keys as text (`sorted`, `k < eff_key`) is ordering periods.
- **Schedules.** A schedule `Dict[str, float]` is a `map<Period, int>`, and a dictionary of schedules keyed by obligation id is a sequence of `(id, schedule)` pairs in insertion order.
- **Purity.** Pure Python functions are Dafny functions with lemmas. Loops are methods with invariants, proved equal to those functions.
- **State.** The journal ledger and the contract store are classes whose file contents are a `seq` field.

Modules:

| module | models |
|---|---|
| `Money`, `Text`, `Periods`, `PeriodKeys`, `Calendar`, `Wrappers` | rounding, string helpers, period maps, key text, month arithmetic |
| `Allocation`, `Recognition` | `backend/app/engine.py` (also `revrec/.../engine.py`, `schedule_logic.py`, `util.py`) |
| `RevrecCodes` | `revrec/.../services/revrec_codes.py` |
| `Variable`, `VariableV1` | the two `variable.py` drafts |
| `Costs`, `Expenses`, `Leases`, `DeferredTax` | the revrec services `costs.py`, `expenses.py`, `leases.py`, `asc740.py` |
| `Consolidation`, `EffectiveInterest`, `NlpRules`, `LegacyMain` | the legacy service's `consolidation.py`, `sfc_effective.py`, `nlp_rules.py`, `main.py` |
| `Auditor`, `RevrecAi`, `RevrecMain` | the revrec `services/auditor.py`, `ai.py`, `main.py` |
| `Contracts`, `BackendMain`, `Posting`, `Reporting`, `Repository`, `BackendAi` | the consolidated backend's `schemas.py`, `main.py`, `posting.py`, `reporting.py`, `repository.py`, `ai.py` |

The three copies of `add_months`, `daterange_months`, `allocate_relative_ssp`,
`straight_line` and `point_in_time` are textually the same algorithm and are
modelled once; the table cites the copy each member was read from.

## Model

| member | source | states |
|---|---|---|
| Money.RoundHalfEven | backend/app/engine.py:13 | `round(x, 2)` in cents: the result is within half a cent of `x`, and an exact tie goes to the even neighbour |
| Money.RoundWhole | backend/app/engine.py:13 | rounding an amount that is already whole cents leaves it unchanged |
| Money.RoundNonNegative | AccrueSmart_Enterprise_v3_software/revrec/backend/app/services/costs.py:62-64 | rounding a non-negative amount never gives a negative one |
| Money.FloorDiv | AccrueSmart_Enterprise_v3_software/revrec/backend/app/services/leases.py:74-78 | Python's `//`: the quotient floors, for either sign of the divisor |
| Money.CeilDiv | AccrueSmart_Enterprise_v3_software/revrec/backend/app/services/leases.py:35-36 | `math.ceil(a / b)`: the least `q` with `a <= q * b` |
| Money.SumAppend | backend/app/engine.py:9 | `sum` over a concatenation is the sum of the two parts |
| Text.Lower | AccrueSmart_Enterprise_v3_software/revrec/backend/app/ai.py:3 | `str.lower()` on ASCII: same length, each letter A-Z mapped to a-z and every other character kept |
| Text.Upper | AccrueSmart_Enterprise_v3_software/legacy/backend/app/nlp_rules.py:5 | `str.upper()` on ASCII, character by character |
| Text.LowerIdempotent | AccrueSmart_Enterprise_v3_software/revrec/backend/app/services/expenses.py:15-20 | lower-casing twice is lower-casing once |
| Text.LowerUpper | AccrueSmart_Enterprise_v3_software/revrec/backend/app/ai.py:3 | lower-casing forgets any earlier upper-casing, so case-insensitive matching ignores letter case |
| Text.ContainsShorter | AccrueSmart_Enterprise_v3_software/revrec/backend/app/ai.py:4 | `sub in s` is false when `sub` is longer than `s` |
| Text.ContainsAt | AccrueSmart_Enterprise_v3_software/revrec/backend/app/ai.py:4 | `sub in s` holds when `sub` occurs at some position of `s` |
| Text.Strip | backend/app/ai.py:8 | `str.strip()`: a slice of the input with no white space at either end, empty exactly when the input is all white space |
| Text.NonBlankLines | backend/app/ai.py:8 | `[l.strip() for l in text.splitlines() if l.strip()]`: every line kept is non-empty and stripped |
| PeriodKeys.Digits | AccrueSmart_Enterprise_v3_software/revrec/backend/app/services/revrec_codes.py:11 | `f"{n:0wd}"`: exactly `w` characters, all decimal digits |
| PeriodKeys.PaddedKey | AccrueSmart_Enterprise_v3_software/revrec/backend/app/services/revrec_codes.py:10-11 | `f"{y:04d}-{m:02d}"`: seven characters with the dash at position 4 |
| PeriodKeys.DigitsOrder | AccrueSmart_Enterprise_v3_software/revrec/backend/app/services/revrec_codes.py:11 | fixed-width digit strings compare as text exactly as their numbers compare, and are equal exactly when the numbers are |
| PeriodKeys.PaddedKeyOrder | AccrueSmart_Enterprise_v3_software/revrec/backend/app/services/revrec_codes.py:10-11 | two `"YYYY-MM"` keys compare as text exactly as their month indexes compare, and are equal exactly when the periods are |
| PeriodKeys.EngineKeyPadded | backend/app/engine.py:19 | the engine's unpadded-year key `f"{d.year}-{d.month:02d}"` is the padded key for years 1000 to 9999 |
| PeriodKeys.DecimalIsDigits | backend/app/engine.py:19 | `str(n)` of an `n` with exactly `w` digits is its `w`-digit padded text |
| PeriodKeys.EffectiveKey | AccrueSmart_Enterprise_v3_software/legacy/backend/app/main.py:49 | `effective_date[:7]` of an ISO date is the `"YYYY-MM"` key of its month |
| Periods.Accumulate | backend/app/posting.py:22 | `m[p] = m.get(p, 0) + v`: `p` is added to the keys, its amount grows by `v`, every other period keeps its amount |
| Periods.MapSumAccumulate | backend/app/posting.py:22 | accumulating `v` into one period raises the schedule's total by exactly `v` |
| Periods.SortedKeys | backend/app/posting.py:24 | `sorted(keys)`: the same periods, strictly ascending |
| Periods.MapSumBeforeFrom | AccrueSmart_Enterprise_v3_software/legacy/backend/app/main.py:52-55 | a schedule's total splits into its total before a period and its total from that period on |
| Calendar.DaysInMonth | AccrueSmart_Enterprise_v3_software/revrec/backend/app/services/leases.py:21-27 | the length of a Gregorian month lies between 28 and 31 |
| Calendar.FirstOfMonth | AccrueSmart_Enterprise_v3_software/revrec/backend/app/util.py:8 | the first day of a month index is a valid date with that month index |
| Calendar.AddMonths | AccrueSmart_Enterprise_v3_software/revrec/backend/app/util.py:5-8 | `add_months(d, n)` is the first of a month, `n` months after `d`'s month |
| Calendar.AddMonthsIsFirstOf | AccrueSmart_Enterprise_v3_software/revrec/backend/app/util.py:5-8 | `add_months(d, n)` is exactly the first day of month index `MonthIndex(d) + n` |
| Calendar.AddMonthsZero | AccrueSmart_Enterprise_v3_software/revrec/backend/app/util.py:5-8 | adding zero months moves a date to the first of its own month |
| Calendar.FirstOfMonthUnique | backend/app/engine.py:6 | a first-of-month date is determined by its month index |
| Calendar.AddMonthsCompose | AccrueSmart_Enterprise_v3_software/revrec/backend/app/util.py:5-8 | adding `a` months and then `b` months is adding `a + b` months |
| Calendar.DateLeMonthIndex | backend/app/engine.py:7 | date order implies month-index order, a strictly earlier month implies date order, and on first-of-month dates the two orders coincide |
| Calendar.DaterangeMonths | backend/app/engine.py:5-7 | the loop yields the first of every month from `start`'s month to `end`'s month, nothing when `end`'s month is earlier |
| Calendar.FirstOfMonthAscending | backend/app/engine.py:7 | the firsts of increasing month indexes are strictly increasing dates |
| Allocation.Shares | backend/app/engine.py:12-13 | each non-last share is `round(total * v / s, 2)` |
| Allocation.Allocation | backend/app/engine.py:8-15 | one allocated amount per SSP |
| Allocation.AllocateRelativeSsp | backend/app/engine.py:8-15 | the loop with its running total computes `Allocation` exactly, the zero-sum case included |
| Allocation.AllocationZeroSum | backend/app/engine.py:9-10 | when the SSPs sum to zero every obligation gets zero |
| Allocation.AllocationTiesOut | backend/app/engine.py:11-14 | otherwise the allocations add up to the transaction price exactly, the last absorbing the rounding |
| Allocation.AllocationProportional | backend/app/engine.py:13 | every allocation but the last is within half a cent of its exact relative-SSP share |
| Allocation.AllocationEightyTwenty | backend/tests/test_engine.py:5-8 | SSPs 80 and 20 split 1000.00 into 800.00 and 200.00 |
| Recognition.Constant | backend/app/engine.py:19 | `{key: per for d in months}`: every month of the range holds the same amount |
| Recognition.ConstantSum | backend/app/engine.py:19-20 | a constant schedule over `n` months totals `n` times the amount |
| Recognition.EvenSplit | backend/app/engine.py:37-39 | an even split covers exactly the `n` consecutive months from the first |
| Recognition.EvenSplitShape | backend/app/engine.py:19-20 | every month but the last gets `round(price / n, 2)`, and the last gets the price less the others |
| Recognition.EvenSplitTotal | backend/app/engine.py:20 | the split totals the price to within half a cent, and exactly when the price is whole cents |
| Recognition.PointInTime | backend/app/engine.py:21 | the whole price in the single month of the date |
| Recognition.StraightLineShape | backend/app/engine.py:16-20 | the schedule covers exactly the months from start to end, all but the last at the rounded per-month amount, and totals the price exactly when that range is non-empty (or the price is zero) |
| Recognition.StraightLine | backend/app/engine.py:16-20 | the builder computes the straight-line schedule |
| Recognition.Milestones | backend/app/engine.py:22-29 | the loop computes the milestone schedule, skipping unmet milestones |
| Recognition.MilestonesKeys | backend/app/engine.py:26-27 | the schedule's months are exactly the months of the met milestones |
| Recognition.MilestonesTotal | backend/app/engine.py:28 | the schedule totals the met shares of the price, within half a cent per met milestone |
| Recognition.MilestonesExample | backend/tests/test_engine.py:24-27 | 40% met in January and 60% met in March of 1000.00 give 400.00 and 600.00 |
| Recognition.ValidatedMilestones | AccrueSmart_Enterprise_v3_software/revrec/backend/app/schedule_logic.py:39-51 | fails exactly when the milestone percentages miss 100% by more than 0.01, and otherwise is the milestone schedule |
| Recognition.PercentComplete | backend/app/engine.py:30-34 | the loop computes the percent-complete schedule |
| Recognition.PercentCompleteShape | backend/app/engine.py:33 | the schedule has exactly the reported periods, and no negative amount for a non-negative price |
| Recognition.PercentCompleteExample | backend/tests/test_engine.py:19-22 | 30%, 80%, 100% of 1000.00 give 300.00, 500.00, 200.00 |
| Recognition.PercentCompleteRecountsAfterDip | backend/app/engine.py:33 | progress 100%, 0%, 100% recognises twice the price, because `prev` follows every row, dips included |
| Recognition.AmortizeCommission | backend/app/engine.py:35-39 | nothing for a non-positive term, otherwise exactly the `months` months from the start, totalling the commission |
| RevrecCodes.MonthAdd | AccrueSmart_Enterprise_v3_software/revrec/backend/app/services/revrec_codes.py:13-17 | `_month_add(d, m)` is a valid date `m` months on, with the day capped at 28 |
| RevrecCodes.TrueUpTotal | AccrueSmart_Enterprise_v3_software/revrec/backend/app/services/revrec_codes.py:39-43 | the drift fix changes only the last month and makes the schedule total the amount exactly |
| RevrecCodes.FillMonths | AccrueSmart_Enterprise_v3_software/revrec/backend/app/services/revrec_codes.py:34-38 | the loop puts `per` into each of the `months` months from the start, and no month for a term below one |
| RevrecCodes.CodesStraightLine | AccrueSmart_Enterprise_v3_software/revrec/backend/app/services/revrec_codes.py:32-44 | the loop and drift fix compute the straight-line rule, division by zero included as an error |
| RevrecCodes.StraightLineRuleShape | AccrueSmart_Enterprise_v3_software/revrec/backend/app/services/revrec_codes.py:32-44 | for a positive term: exactly the `months` months from the start, all but the last at `round(amount / months, 2)`, totalling the amount |
| RevrecCodes.StraightLineRuleErrors | AccrueSmart_Enterprise_v3_software/revrec/backend/app/services/revrec_codes.py:33-43 | a zero term fails (division by zero); a negative term fails exactly when there is an amount to true up into a month that was never written, and gives an empty schedule otherwise |
| RevrecCodes.CodesPointInTime | AccrueSmart_Enterprise_v3_software/revrec/backend/app/services/revrec_codes.py:46-47 | the whole amount in the single month of the date |
| RevrecCodes.Proportional | AccrueSmart_Enterprise_v3_software/revrec/backend/app/services/revrec_codes.py:52-53 | one rounded amount per month of the curve |
| RevrecCodes.UsageBased | AccrueSmart_Enterprise_v3_software/revrec/backend/app/services/revrec_codes.py:49-59 | the loop computes the proportional rule over the usage curve |
| RevrecCodes.ProportionalRuleShape | AccrueSmart_Enterprise_v3_software/revrec/backend/app/services/revrec_codes.py:49-59 | the months are the curve's, every month but the latest holds `round(amount * pct, 2)`, and a non-empty curve totals the amount exactly |
| RevrecCodes.MilestoneBased | AccrueSmart_Enterprise_v3_software/revrec/backend/app/services/revrec_codes.py:61-73 | the loop computes the milestone rule |
| RevrecCodes.MilestoneAccrualKeys | AccrueSmart_Enterprise_v3_software/revrec/backend/app/services/revrec_codes.py:64-68 | the accrued months are exactly the mapped months of the weighted milestones, unmapped ones skipped |
| RevrecCodes.MilestoneRuleShape | AccrueSmart_Enterprise_v3_software/revrec/backend/app/services/revrec_codes.py:61-73 | the same months after the drift fix, and a non-empty schedule totals the amount exactly |
| RevrecCodes.ApplyRuleDispatch | AccrueSmart_Enterprise_v3_software/revrec/backend/app/services/revrec_codes.py:86-104 | `apply_rule` fails exactly on an unknown rule type or on a straight-line rule whose negative term leaves an amount to true up |
| RevrecCodes.ApplyRuleDefaults | AccrueSmart_Enterprise_v3_software/revrec/backend/app/services/revrec_codes.py:88-92 | with no parameters, straight line runs 12 months from 2025-01-01 and point in time lands in January 2025 |
| Variable.ExpectedReturns | AccrueSmart_Enterprise_v3_software/revrec/backend/app/variable.py:33-51 | all zero when the rate or the revenue is zero; the refund liability is the rounded revenue times the rate, the contra-revenue is its negation and the returns asset is 60% of it |
| Variable.LoyaltyLiability | AccrueSmart_Enterprise_v3_software/revrec/backend/app/variable.py:61-67 | the rounded price times the loyalty percentage, zero for no loyalty and never negative for non-negative inputs |
| Variable.LoyaltyScheduleTiesOut | AccrueSmart_Enterprise_v3_software/revrec/backend/app/variable.py:84-101 | a positive term covers exactly its months from the start; every month but the last recognises the rounded even share of the expected redemption, the last its trued-up share with the whole breakage added unrounded on top, and together they recognise the whole liability |
| Variable.LoyaltyScheduleEmpty | AccrueSmart_Enterprise_v3_software/revrec/backend/app/variable.py:84-85 | the schedule is empty exactly when the term is not positive or the liability is zero |
| VariableV1.ExpectedReturnsV1 | backend/app/variable.py:6-10 | the first draft books the contra-revenue and the refund liability both as the rounded revenue times the rate, and 60% of that as the returns asset |
| VariableV1.ReturnsDraftsDiffer | backend/app/variable.py:6-10 | the two drafts agree on the liability and the asset, and their contra-revenues have opposite signs |
| VariableV1.LoyaltyLiabilityV1 | backend/app/variable.py:12-13 | the first draft's loyalty liability is the later one's |
| VariableV1.LoyaltyScheduleV1Shape | backend/app/variable.py:15-22 | fails exactly for a non-positive term (the `IndexError` of `months_list[-1]` on an empty month list; the division itself is guarded by `max(1, len)`); otherwise covers the term's months and totals the unbroken part of the liability to within half a cent |
| Costs.Weights | AccrueSmart_Enterprise_v3_software/revrec/backend/app/services/costs.py:41-52 | an accepted weight list has one weight per month |
| Costs.Rounded | AccrueSmart_Enterprise_v3_software/revrec/backend/app/services/costs.py:62-64 | each month's amount is `round(w / weight_sum * total, 2)` |
| Costs.DriftFixedTotal | AccrueSmart_Enterprise_v3_software/revrec/backend/app/services/costs.py:65-67 | the drift fix changes only the last amount, which becomes the total less the others, so the amounts sum to the total |
| Costs.CostRows | AccrueSmart_Enterprise_v3_software/revrec/backend/app/services/costs.py:69-81 | one row per amount |
| Costs.CostAmounts | AccrueSmart_Enterprise_v3_software/revrec/backend/app/services/costs.py:41-67 | accepted amounts exist only for a positive term, one per month |
| Costs.RunDown | AccrueSmart_Enterprise_v3_software/revrec/backend/app/services/costs.py:69-81 | the row loop computes the rows as written |
| Costs.AmortizeCost | AccrueSmart_Enterprise_v3_software/revrec/backend/app/services/costs.py:21-87 | the whole function computes the result as written, errors included |
| Costs.AmortizeCostErrors | AccrueSmart_Enterprise_v3_software/revrec/backend/app/services/costs.py:36-39 | a non-positive term and a negative total raise their errors, and otherwise the result succeeds exactly when the weights are accepted |
| Costs.CostWeightErrors | AccrueSmart_Enterprise_v3_software/revrec/backend/app/services/costs.py:41-56 | an unknown method, a percent list or curve of the wrong length, and a curve summing to zero or less each raise their error, and straight line always succeeds |
| Costs.CostRowsShape | AccrueSmart_Enterprise_v3_software/revrec/backend/app/services/costs.py:69-81 | row `i` is numbered `i + 1`, is in the `i`-th month, opens with what the earlier rows left, amortizes `min(opening, amt)` and closes with the opening less the amortization |
| Costs.CostRowsTelescope | AccrueSmart_Enterprise_v3_software/revrec/backend/app/services/costs.py:69-86 | the amortizations total the starting amount less what finally remains |
| Costs.RemainingNonNegative | AccrueSmart_Enterprise_v3_software/revrec/backend/app/services/costs.py:69-72 | with non-negative amounts, what remains is the total less their sum, floored at zero |
| Costs.CorrectedRunDownEnds | AccrueSmart_Enterprise_v3_software/revrec/backend/app/services/costs.py:69-86 | with the amortization clamped at zero and a last amount that completes the total, the last closing is zero and the amortizations total the cost |
| Costs.CostAmountsShape | AccrueSmart_Enterprise_v3_software/revrec/backend/app/services/costs.py:41-67 | for non-negative weights, every amount but the last is non-negative, the last completes the total, and they sum to it |
| Costs.CorrectedCostTiesOut | AccrueSmart_Enterprise_v3_software/revrec/backend/app/services/costs.py:58-87 | the corrected schedule has one row per month, closes at zero and amortizes exactly the total |
| Costs.CostOvershoot | AccrueSmart_Enterprise_v3_software/revrec/backend/app/services/costs.py:65-72 | as written, 0.03 over 5 straight-line months amortizes -0.01 in the last month, closes at 0.01 and amortizes 0.02 in all |
| Expenses.ClassifyExpense | AccrueSmart_Enterprise_v3_software/revrec/backend/app/services/expenses.py:7-21 | amount and note are passed through; the category is Deferred for annual or prepaid, else CapEx for equipment or server, else COGS for hosting or warehouse, else SG&A |
| Expenses.ClassifyIgnoresCase | AccrueSmart_Enterprise_v3_software/revrec/backend/app/services/expenses.py:15-20 | classification does not depend on letter case |
| Expenses.ClassifyDeferredWins | AccrueSmart_Enterprise_v3_software/revrec/backend/app/services/expenses.py:19-20 | "Prepaid server hosting" is Deferred: the last test overrides the others |
| Expenses.ClassifyCapExOverCogs | AccrueSmart_Enterprise_v3_software/revrec/backend/app/services/expenses.py:17-18 | "Server hosting" is CapEx, not COGS |
| Expenses.PrepaidRows | AccrueSmart_Enterprise_v3_software/revrec/backend/app/services/expenses.py:23-33 | one row per month of a positive term, none otherwise |
| Expenses.AmortizePrepaid | AccrueSmart_Enterprise_v3_software/revrec/backend/app/services/expenses.py:23-33 | the loop computes the rows as written |
| Expenses.PrepaidShape | AccrueSmart_Enterprise_v3_software/revrec/backend/app/services/expenses.py:24-32 | row `i` is the `i`-th month from the start, dated the first of that month, expenses `round(amount / months, 2)` and leaves the amount less the expenses so far |
| Expenses.PrepaidDrift | AccrueSmart_Enterprise_v3_software/revrec/backend/app/services/expenses.py:24-29 | as written, the final remaining balance is off by at most half a cent per month |
| Expenses.PrepaidOvershoot | AccrueSmart_Enterprise_v3_software/revrec/backend/app/services/expenses.py:24-29 | as written, 200.00 over 3 months expenses 66.67 three times and ends at -0.01 |
| Expenses.CorrectedPrepaidRows | AccrueSmart_Enterprise_v3_software/revrec/backend/app/services/expenses.py:23-33 | the corrected rows have the same months as the original |
| Expenses.CorrectedPrepaidTiesOut | AccrueSmart_Enterprise_v3_software/revrec/backend/app/services/expenses.py:23-33 | with the last month absorbing the rounding, each remaining balance is the amount less the expenses so far, the expenses total the amount and the last balance is zero |
| Leases.MonthsBetween | AccrueSmart_Enterprise_v3_software/revrec/backend/app/services/leases.py:14-15 | `_months_between` is the difference of the month indexes; the day comparison adds nothing either way |
| Leases.AddMonthsClamped | AccrueSmart_Enterprise_v3_software/revrec/backend/app/services/leases.py:18-27 | `_add_months` is a valid date `n` months on whose day is the original day capped at the length of the target month |
| Leases.ClampDay | AccrueSmart_Enterprise_v3_software/revrec/backend/app/services/leases.py:21-25 | trying days 31, 30, 29, 28 in turn finds the original day capped at the month's length |
| Leases.StepMonths | AccrueSmart_Enterprise_v3_software/revrec/backend/app/services/leases.py:30-36 | the months per period of a payment frequency are positive |
| Leases.PeriodCount | AccrueSmart_Enterprise_v3_software/revrec/backend/app/services/leases.py:30-36 | `_periods` is the least number of whole periods covering the inclusive month span, which for monthly payments is the span itself |
| Leases.PeriodDate | AccrueSmart_Enterprise_v3_software/revrec/backend/app/services/leases.py:39-44 | payment date `i` is a valid date `i` periods after the start, its day clamped to the month |
| Leases.PaymentForPeriod | AccrueSmart_Enterprise_v3_software/revrec/backend/app/services/leases.py:69-79 | fails (integer division by zero) exactly when there is escalation with a zero interval; without escalation it is the base payment |
| Leases.BumpsMonotone | AccrueSmart_Enterprise_v3_software/revrec/backend/app/services/leases.py:74-78 | the number of escalation steps never decreases with the period index |
| Leases.PaymentNonDecreasing | AccrueSmart_Enterprise_v3_software/revrec/backend/app/services/leases.py:69-79 | with a positive CPI the payment never decreases from one period to a later one |
| Leases.Payments | AccrueSmart_Enterprise_v3_software/revrec/backend/app/services/leases.py:69-79 | the payment stream holds `_payment_for_period` for each period index |
| Leases.LeaseRoll | AccrueSmart_Enterprise_v3_software/revrec/backend/app/services/leases.py:124-147 | the roll-forward produces one row per period it has visited |
| Leases.Advance | AccrueSmart_Enterprise_v3_software/revrec/backend/app/services/leases.py:124-147 | one step of the loop appends a row and keeps every earlier row |
| Leases.PeriodDates | AccrueSmart_Enterprise_v3_software/revrec/backend/app/services/leases.py:39-44 | the list of payment dates holds `_period_date_idx` for each period index |
| Leases.DiscountPayments | AccrueSmart_Enterprise_v3_software/revrec/backend/app/services/leases.py:111-114 | the present-value loop computes the payments discounted at the periodic rate |
| Leases.BuildRows | AccrueSmart_Enterprise_v3_software/revrec/backend/app/services/leases.py:124-147 | the row loop computes the roll-forward of the payment stream |
| Leases.ComputeSchedule | AccrueSmart_Enterprise_v3_software/revrec/backend/app/services/leases.py:82-157 | `compute_schedule` computes the specified schedule, errors included |
| Leases.ScheduleFor | AccrueSmart_Enterprise_v3_software/revrec/backend/app/services/leases.py:105-157 | the schedule over a known number of periods is assembled as specified |
| Leases.LeaseRollRows | AccrueSmart_Enterprise_v3_software/revrec/backend/app/services/leases.py:124-147 | every row the roll-forward keeps is numbered from 1, dated with its payment date, and amortizes the right-of-use asset by an equal share |
| Leases.AdvanceRow | AccrueSmart_Enterprise_v3_software/revrec/backend/app/services/leases.py:136-145 | the appended row carries its number, date and equal right-of-use amortization |
| Leases.ComputeScheduleShape | AccrueSmart_Enterprise_v3_software/revrec/backend/app/services/leases.py:82-157 | a successful schedule has the lease id, one row per period, each numbered, dated and amortizing the right-of-use asset evenly |
| Leases.ScheduleOverShape | AccrueSmart_Enterprise_v3_software/revrec/backend/app/services/leases.py:105-157 | the same shape for a known positive number of periods |
| Leases.AssembleShape | AccrueSmart_Enterprise_v3_software/revrec/backend/app/services/leases.py:116-157 | assembling rows from payments and dates keeps that shape |
| Leases.ComputeScheduleErrors | AccrueSmart_Enterprise_v3_software/revrec/backend/app/services/leases.py:105-114 | the computation fails exactly when there are periods and either escalation has a zero interval (integer division by zero) or the periodic rate is -100% (float division by zero) |
| Leases.RowJournal | AccrueSmart_Enterprise_v3_software/revrec/backend/app/services/leases.py:171-195 | four journal lines per schedule row |
| Leases.Journals | AccrueSmart_Enterprise_v3_software/revrec/backend/app/services/leases.py:160-196 | four lines for each row, in row order |
| Leases.JournalsFromSchedule | AccrueSmart_Enterprise_v3_software/revrec/backend/app/services/leases.py:160-196 | the loop computes the journal lines |
| Leases.JournalsShape | AccrueSmart_Enterprise_v3_software/revrec/backend/app/services/leases.py:171-195 | line `4k + t` is the `t`-th line of row `k` |
| Leases.Debits | AccrueSmart_Enterprise_v3_software/revrec/backend/app/services/leases.py:171-195 | the debit column of the journal lines |
| Leases.Credits | AccrueSmart_Enterprise_v3_software/revrec/backend/app/services/leases.py:171-195 | the credit column of the journal lines |
| Leases.JournalsDebits | AccrueSmart_Enterprise_v3_software/revrec/backend/app/services/leases.py:160-196 | the journal's debits total, over all rows, the interest plus the ROU amortization |
| Leases.JournalsCredits | AccrueSmart_Enterprise_v3_software/revrec/backend/app/services/leases.py:160-196 | the journal's credits total, over all rows, the payment plus the principal |
| DeferredTax.Dtl | AccrueSmart_Enterprise_v3_software/revrec/backend/app/services/asc740.py:39 | the gross DTL is the rate on the positive differences, never negative for a non-negative rate |
| DeferredTax.Dta | AccrueSmart_Enterprise_v3_software/revrec/backend/app/services/asc740.py:43 | the gross DTA is the rate on the magnitudes of the negative differences, never negative for a non-negative rate |
| DeferredTax.Amounts | AccrueSmart_Enterprise_v3_software/revrec/backend/app/services/asc740.py:39-43 | the amounts of the temporary differences, in order |
| DeferredTax.DtlLessDta | AccrueSmart_Enterprise_v3_software/revrec/backend/app/services/asc740.py:39-43 | DTL less DTA is the rate times the net temporary difference |
| DeferredTax.DtaIsFlippedDtl | AccrueSmart_Enterprise_v3_software/revrec/backend/app/services/asc740.py:39-43 | the DTA is the DTL of the sign-flipped differences |
| DeferredTax.Entry | AccrueSmart_Enterprise_v3_software/revrec/backend/app/services/asc740.py:65-72 | a mapping entry keeps the period and amount, is a DTL exactly when the difference is positive, and its deferred tax has the sign of its type |
| DeferredTax.Mapping | AccrueSmart_Enterprise_v3_software/revrec/backend/app/services/asc740.py:65-72 | one entry per difference, in order |
| DeferredTax.BucketsAreYearTotals | AccrueSmart_Enterprise_v3_software/revrec/backend/app/services/asc740.py:54-56 | the buckets are exactly the reversal years that occur, each holding the total of that year's differences |
| DeferredTax.ReversalBuckets | AccrueSmart_Enterprise_v3_software/revrec/backend/app/services/asc740.py:54-56 | the loop computes the buckets |
| DeferredTax.Allowance | AccrueSmart_Enterprise_v3_software/revrec/backend/app/services/asc740.py:50 | the valuation allowance lies between zero and the rounded DTA for a percentage in 0..1 |
| DeferredTax.NetPosition | AccrueSmart_Enterprise_v3_software/revrec/backend/app/services/asc740.py:51 | with no allowance the net position is minus the rate on the net temporary difference, rounded |
| DeferredTax.ComputeDeferredTax | AccrueSmart_Enterprise_v3_software/revrec/backend/app/services/asc740.py:23-73 | the result carries the rate, the rounded gross DTL and DTA, the allowance, the net position, the buckets and the mapping |
| Consolidation.RateType | AccrueSmart_Enterprise_v3_software/legacy/backend/app/consolidation.py:8 | `r.rate_type or 'month_end'`: a given non-empty rate type is kept, otherwise month end |
| Consolidation.FxKeys | AccrueSmart_Enterprise_v3_software/legacy/backend/app/consolidation.py:7-8 | the FX table has an entry exactly for each (period, currency, rate type) some rate row names |
| Consolidation.FxLastWins | AccrueSmart_Enterprise_v3_software/legacy/backend/app/consolidation.py:7-8 | a key's entry is the rate of the last row naming it |
| Consolidation.BuildFx | AccrueSmart_Enterprise_v3_software/legacy/backend/app/consolidation.py:6-8 | the loop builds the FX table |
| Consolidation.PickRate | AccrueSmart_Enterprise_v3_software/legacy/backend/app/consolidation.py:10-13 | the requested rate type if present, else month end, else average, else 1.0 |
| Consolidation.PickRateFromRows | AccrueSmart_Enterprise_v3_software/legacy/backend/app/consolidation.py:10-13 | the rate picked is 1.0 or the rate of some row for that period and currency |
| Consolidation.Translate | AccrueSmart_Enterprise_v3_software/legacy/backend/app/consolidation.py:16-18 | translating one amount adds it times its rate into its period to within half a cent, touching no other period |
| Consolidation.ConvertNear | AccrueSmart_Enterprise_v3_software/legacy/backend/app/consolidation.py:15-18 | translating an entity's schedule covers its periods, each within half a cent per item of the exact translated sum |
| Consolidation.AddConverted | AccrueSmart_Enterprise_v3_software/legacy/backend/app/consolidation.py:15-18 | the translation loop computes that conversion |
| Consolidation.TotalsNear | AccrueSmart_Enterprise_v3_software/legacy/backend/app/consolidation.py:14-18 | over all entities, every period's parent-currency revenue and commission is within half a cent per item of the exact translated total |
| Consolidation.RoundedAdd | AccrueSmart_Enterprise_v3_software/legacy/backend/app/consolidation.py:21-23 | `round(m.get(p, 0) + v, 2)` on cents is the accumulate step |
| Consolidation.EliminateSums | AccrueSmart_Enterprise_v3_software/legacy/backend/app/consolidation.py:19-23 | the eliminations total has every period some row names, holding the sum of those rows' amounts |
| Consolidation.AddAdjustments | AccrueSmart_Enterprise_v3_software/legacy/backend/app/consolidation.py:20-23 | the elimination and intercompany loops compute that total |
| Consolidation.Net | AccrueSmart_Enterprise_v3_software/legacy/backend/app/consolidation.py:24 | subtracting eliminations keeps every revenue period and adds the eliminated ones |
| Consolidation.SubtractEliminations | AccrueSmart_Enterprise_v3_software/legacy/backend/app/consolidation.py:24 | the subtraction loop computes the net |
| Consolidation.RowsAt | AccrueSmart_Enterprise_v3_software/legacy/backend/app/consolidation.py:25 | one row per listed period with its revenue and commission, absent counting zero |
| Consolidation.Rows | AccrueSmart_Enterprise_v3_software/legacy/backend/app/consolidation.py:25 | the rows are in strictly ascending period order, each period used by revenue or commission, with its amounts |
| Consolidation.RowsCover | AccrueSmart_Enterprise_v3_software/legacy/backend/app/consolidation.py:25 | every period with revenue or commission gets a row |
| Consolidation.Consolidate | AccrueSmart_Enterprise_v3_software/legacy/backend/app/consolidation.py:5-26 | the whole function computes the consolidated result |
| Consolidation.ConsolidatedRowsNear | AccrueSmart_Enterprise_v3_software/legacy/backend/app/consolidation.py:14-25 | each row's revenue is within half a cent per item of the exact translated revenue less the period's eliminations and intercompany amounts, and its commission likewise |
| Consolidation.RowsOfNet | AccrueSmart_Enterprise_v3_software/legacy/backend/app/consolidation.py:24-25 | each row's revenue is the translated revenue less the eliminations of its period |
| EffectiveInterest.MonthlyRateFromAnnual | AccrueSmart_Enterprise_v3_software/legacy/backend/app/sfc_effective.py:3-4 | the monthly rate is the annual rate over twelve |
| EffectiveInterest.Step | AccrueSmart_Enterprise_v3_software/legacy/backend/app/sfc_effective.py:20-21 | a month's interest is the opening balance times the rate to within half a cent, and the closing balance is opening plus interest less payment |
| EffectiveInterest.Roll | AccrueSmart_Enterprise_v3_software/legacy/backend/app/sfc_effective.py:19-21 | one row per payment period |
| EffectiveInterest.Keyed | AccrueSmart_Enterprise_v3_software/legacy/backend/app/sfc_effective.py:21 | the output has exactly the payment periods as keys |
| EffectiveInterest.InterestSchedule | AccrueSmart_Enterprise_v3_software/legacy/backend/app/sfc_effective.py:11-22 | the schedule has exactly the payment periods, and is empty for no payments |
| EffectiveInterest.RollAt | AccrueSmart_Enterprise_v3_software/legacy/backend/app/sfc_effective.py:19-21 | row `k` is one step from the closing balance of row `k - 1` (the initial carry for the first) |
| EffectiveInterest.RollChains | AccrueSmart_Enterprise_v3_software/legacy/backend/app/sfc_effective.py:19-21 | every row has its period's payment and the rate, interest within half a cent of the rate on its opening, and closes at opening plus interest less payment |
| EffectiveInterest.RollTelescopes | AccrueSmart_Enterprise_v3_software/legacy/backend/app/sfc_effective.py:17-21 | the final balance is the initial carry plus all interest less all payments |
| EffectiveInterest.ZeroRateRepays | AccrueSmart_Enterprise_v3_software/legacy/backend/app/sfc_effective.py:17-21 | at a zero rate no interest accrues and the final balance is the carry less the payments |
| EffectiveInterest.ScheduleRows | AccrueSmart_Enterprise_v3_software/legacy/backend/app/sfc_effective.py:12-21 | the entry for the `i`-th period in sorted order is the `i`-th row, with that period's payment and the annual rate over twelve |
| EffectiveInterest.EffectiveInterestSchedule | AccrueSmart_Enterprise_v3_software/legacy/backend/app/sfc_effective.py:11-22 | the loop computes the schedule |
| Auditor.Score | AccrueSmart_Enterprise_v3_software/revrec/backend/app/services/auditor.py:20-39 | 0 exactly for an empty finding; otherwise by precedence 40 for errors, 90 for a lease schedule, 85 for deferred tax, 80 for a forecast, 70 for anything else |
| Auditor.Note | AccrueSmart_Enterprise_v3_software/revrec/backend/app/services/auditor.py:20-39 | each note starts with the module's name and a colon |
| Auditor.Scores | AccrueSmart_Enterprise_v3_software/revrec/backend/app/services/auditor.py:20-39 | one score per finding, in order |
| Auditor.AverageBounds | AccrueSmart_Enterprise_v3_software/revrec/backend/app/services/auditor.py:41 | the average lies between 0 and 90, and is 0 when every finding is empty |
| Auditor.UniformAverage | AccrueSmart_Enterprise_v3_software/revrec/backend/app/services/auditor.py:41 | findings that all score the same average to that score |
| Auditor.SummarizeAudit | AccrueSmart_Enterprise_v3_software/revrec/backend/app/services/auditor.py:20-41 | one score and one note per finding in order, distinct module keys kept distinct, and the average of the scores to one decimal |
| NlpRules.DetectStandard | AccrueSmart_Enterprise_v3_software/legacy/backend/app/nlp_rules.py:11-18 | the first family of terms found in the lower-cased text decides: lease, then collaboration, then nonfinancial asset, then insurance, then customer contract; Unknown exactly when none is found |
| NlpRules.DetectStandardIgnoresCase | AccrueSmart_Enterprise_v3_software/legacy/backend/app/nlp_rules.py:12 | the standard does not depend on letter case |
| NlpRules.LeaseBeatsCustomer | AccrueSmart_Enterprise_v3_software/legacy/backend/app/nlp_rules.py:13-17 | "Customer lease term" is a lease, although it also names a customer |
| NlpRules.CodeAt | AccrueSmart_Enterprise_v3_software/legacy/backend/app/nlp_rules.py:5 | a currency code is matched at a position exactly when one of the seven codes stands there as a whole word |
| NlpRules.FindFrom | AccrueSmart_Enterprise_v3_software/legacy/backend/app/nlp_rules.py:5 | the scan finds the leftmost whole-word match of a listed code from a position, or reports that none follows |
| NlpRules.FindCurrency | AccrueSmart_Enterprise_v3_software/legacy/backend/app/nlp_rules.py:4-5 | `find_currency` is None exactly when no code occurs as a word, and otherwise a code occurring at the leftmost match position |
| NlpRules.UpperOfMatch | AccrueSmart_Enterprise_v3_software/legacy/backend/app/nlp_rules.py:5 | upper-casing the matched text gives the code itself, whatever its case in the text |
| NlpRules.LinePos | AccrueSmart_Enterprise_v3_software/legacy/backend/app/nlp_rules.py:24-28 | every group whose keywords the line names as whole words contributes its obligation, and every obligation read from a line comes from a group the line names |
| NlpRules.DedupUnique | AccrueSmart_Enterprise_v3_software/legacy/backend/app/nlp_rules.py:29-33 | deduplication keeps exactly the descriptions that occur, each once |
| NlpRules.DedupFirstOccurrences | AccrueSmart_Enterprise_v3_software/legacy/backend/app/nlp_rules.py:29-33 | each kept obligation is the first one with its description, and they keep the input order |
| NlpRules.CandidatesStep | AccrueSmart_Enterprise_v3_software/legacy/backend/app/nlp_rules.py:21-28 | one more line adds its obligations, or nothing when it is blank |
| NlpRules.DedupStep | AccrueSmart_Enterprise_v3_software/legacy/backend/app/nlp_rules.py:30-32 | one more obligation is kept exactly when its description is new |
| NlpRules.CandidateLoop | AccrueSmart_Enterprise_v3_software/legacy/backend/app/nlp_rules.py:21-28 | the first loop computes the candidates of the lines, blank lines skipped |
| NlpRules.DedupLoop | AccrueSmart_Enterprise_v3_software/legacy/backend/app/nlp_rules.py:29-33 | the second loop computes the deduplication of the candidates |
| NlpRules.ExtractPos | AccrueSmart_Enterprise_v3_software/legacy/backend/app/nlp_rules.py:19-33 | the two loops compute the deduplicated candidates of the text's lines |
| NlpRules.Recommendations | AccrueSmart_Enterprise_v3_software/legacy/backend/app/nlp_rules.py:50-54 | the return recommendation exactly when the text grants a return without a restocking fee, the acceptance recommendation exactly when it mentions acceptance without criteria, in that order |
| NlpRules.Preview | AccrueSmart_Enterprise_v3_software/legacy/backend/app/nlp_rules.py:56-59 | the preview is the first eight non-blank stripped lines joined by spaces, cut to at most 600 characters |
| NlpRules.Take | AccrueSmart_Enterprise_v3_software/legacy/backend/app/nlp_rules.py:56 | `lines[:n]` is the first `n` lines, or all of them when there are fewer |
| NlpRules.SummarizeRevenue | AccrueSmart_Enterprise_v3_software/legacy/backend/app/nlp_rules.py:55-57 | the revenue summary is its fixed introduction, the preview, and "..." |
| NlpRules.SummarizeNonrevenue | AccrueSmart_Enterprise_v3_software/legacy/backend/app/nlp_rules.py:58-60 | the non-revenue summary is its fixed introduction, the preview, and "..." |
| RevrecAi.ClassifyStandard | AccrueSmart_Enterprise_v3_software/revrec/backend/app/ai.py:2-6 | a lease anywhere gives ASC842; otherwise ASC606 exactly when the text names a customer, subscription or license; Unknown exactly when neither |
| RevrecAi.ClassifyStandardIgnoresCase | AccrueSmart_Enterprise_v3_software/revrec/backend/app/ai.py:3 | the standard does not depend on letter case |
| RevrecAi.BareLeaseReadersDisagree | AccrueSmart_Enterprise_v3_software/revrec/backend/app/ai.py:4 | on the text "Lease" this reader finds a lease while the legacy rules find no standard |
| RevrecAi.ExtractPos | AccrueSmart_Enterprise_v3_software/revrec/backend/app/ai.py:7-11 | the hardware obligation exactly when the text names hardware, the SaaS one exactly when it names SaaS or software, hardware first |
| RevrecAi.DetectRisks | AccrueSmart_Enterprise_v3_software/revrec/backend/app/ai.py:12-15 | the return risk exactly when the text grants a right to return, nothing otherwise |
| RevrecAi.RecommendLanguage | AccrueSmart_Enterprise_v3_software/revrec/backend/app/ai.py:16-19 | the return-clause recommendation exactly when the text grants a right to return, nothing otherwise |
| BackendAi.MethodFor | backend/app/ai.py:14-16 | the method of the first keyword list that matches the line, straight line when none does |
| BackendAi.DeliveryWinsOverSubscription | backend/app/ai.py:3-16 | "Monthly delivery" is point in time: the first matching method in dictionary order wins |
| BackendAi.PoId | backend/app/ai.py:18 | `f'PO-{idx:02d}'` starts with "PO-" |
| BackendAi.PoIdOrder | backend/app/ai.py:18 | for indexes up to 99 the ids compare as text exactly as the indexes compare, and are equal exactly when the indexes are |
| BackendAi.RemoveCommas | backend/app/ai.py:17 | `line.replace(',', '')` has no comma and every other character of the line |
| BackendAi.FirstNumberCents | backend/app/ai.py:17 | the first number is None exactly when the text has no digit, and otherwise is never negative |
| BackendAi.NumberRoundTrip | backend/app/ai.py:17 | the decimal text of `n` reads back as `n` dollars |
| BackendAi.NumberAfterText | backend/app/ai.py:17 | a whole number after digit-free text, not followed by a digit or by a point and two digits, is read as that many dollars |
| BackendAi.NumberWithCents | backend/app/ai.py:17 | a number with a point and two digits after digit-free text is read as its dollars and cents, whatever follows |
| BackendAi.SspOf | backend/app/ai.py:17 | the SSP is never negative, and 0.0 when the line has no digit |
| BackendAi.SspOfWhole | backend/app/ai.py:17 | when the line with commas removed holds a whole number after digit-free text, the SSP is that number |
| BackendAi.SspOfCents | backend/app/ai.py:17 | when the line with commas removed holds a number with a point and two digits after digit-free text, the SSP is that number in dollars and cents |
| BackendAi.ParseShape | backend/app/ai.py:10-18 | the obligations are the obligation lines in order, the `k`-th numbered `k + 1` with its line, method and SSP, and no obligation line is skipped |
| BackendAi.NumberLines | backend/app/ai.py:9-18 | the loop numbers the accepted lines from 1 and reads each with its number |
| BackendAi.ContractParseText | backend/app/ai.py:7-18 | the loop computes the parse of the text's non-blank stripped lines |
| BackendAi.SortAsc | backend/app/ai.py:23 | sorting gives an ascending permutation of the history |
| BackendAi.SuggestSspWithinHistory | backend/app/ai.py:21-23 | the suggested SSP of a non-empty history lies between two of its prices, and a single price suggests itself |
| Contracts.Ids | backend/app/schemas.py:16-17 | the set of obligation ids holds every obligation's id and nothing else |
| Contracts.FirstStart | backend/app/main.py:45 | the start date of the first obligation that has one, 2025-01-01 when none has |
| Contracts.Ssps | backend/app/main.py:28 | `[po.ssp for po in contract.pos]` |
| Contracts.AllocResults | backend/app/main.py:31-32 | one allocation result per obligation with its id, SSP and share, in order |
| Contracts.Put | backend/app/main.py:34 | `d[k] = v`: `k` becomes a key holding `v`, other keys keep their schedules, and an existing key leaves the entry count unchanged |
| Contracts.PutPlace | backend/app/main.py:34 | `d[k] = v` keeps an existing key in its place and appends a new key after all the others |
| Contracts.Lookup | backend/app/main.py:34 | `d.get(k)` is present exactly for the dictionary's keys |
| Contracts.AddInto | AccrueSmart_Enterprise_v3_software/legacy/backend/app/main.py:44-46 | adding one schedule into a running total adds amounts period by period over the union of periods |
| Contracts.MapSumAddInto | AccrueSmart_Enterprise_v3_software/legacy/backend/app/main.py:44-46 | adding a schedule into a total adds its total |
| Contracts.FlattenSums | AccrueSmart_Enterprise_v3_software/legacy/backend/app/main.py:42-46 | `sum_map` has exactly the periods some obligation uses, each holding the sum of the obligations' amounts, and totals all the schedules |
| BackendMain.PoSchedule | backend/app/main.py:33-40 | an obligation's schedule fails exactly when its method needs a date it does not have |
| BackendMain.DispatchSchedule | backend/app/main.py:33-40 | the method dispatch computes that schedule |
| BackendMain.FailureSticks | backend/app/main.py:31-40 | an error raised for an earlier obligation is the loop's result |
| BackendMain.SchedulesFail | backend/app/main.py:31-40 | the loop fails exactly when some obligation lacks a date its method needs |
| BackendMain.SchedulesKeys | backend/app/main.py:31-40 | when the loop succeeds the schedule keys are exactly the obligation ids |
| BackendMain.SchedulesLookup | backend/app/main.py:31-40 | when no later obligation shares an obligation's id, that obligation's key holds its own schedule |
| BackendMain.ScheduleLoop | backend/app/main.py:31-40 | the loop computes the schedule dictionary, stopping at the first obligation whose schedule fails, and one allocation result per obligation when it succeeds |
| BackendMain.CommissionRule | backend/app/main.py:41-48 | the commission fails exactly when it is expensed and there is no obligation; a positive term totals the commission, and expensed commission is the whole commission in the first obligation's start month (January 2025 when it has no start date) |
| BackendMain.CommissionAmortized | backend/app/main.py:42-46 | amortized commission succeeds and covers exactly the benefit months from the first obligation's start date |
| BackendMain.AdjustmentsRule | backend/app/main.py:50-60 | the adjustments fail exactly on a loyalty share with a term of no months; returns are adjusted exactly when the rate and the point-in-time revenue are positive, loyalty exactly when its share is positive, out of the full price, with its recognition schedule starting at the first obligation start date (January 2025 when none has one); none exactly when neither applied |
| BackendMain.BuildAllocation | backend/app/main.py:27-62 | the orchestration computes the specified response, errors included |
| BackendMain.BuildAllocationFails | backend/app/main.py:27-62 | the call fails exactly on a missing date, on expensed commission with no obligation, or on a loyalty term of no months |
| BackendMain.BuildAllocationShape | backend/app/main.py:27-62 | a response holds one allocation result per obligation in order, tying out to the price, one schedule per obligation id, and a commission schedule exactly when there is a plan |
| RevrecMain.ScheduledIds | AccrueSmart_Enterprise_v3_software/revrec/backend/app/main.py:19-24 | the ids of the obligations that get a schedule |
| RevrecMain.SchedulesKeys | AccrueSmart_Enterprise_v3_software/revrec/backend/app/main.py:19-24 | the schedule keys are exactly the ids of straight-line obligations with both dates and point-in-time obligations with a start date |
| RevrecMain.SchedulesLookup | AccrueSmart_Enterprise_v3_software/revrec/backend/app/main.py:19-24 | with distinct ids, a scheduled obligation's key holds its schedule and any other obligation has none |
| RevrecMain.ScheduleLoop | AccrueSmart_Enterprise_v3_software/revrec/backend/app/main.py:19-24 | the loop computes the schedule dictionary and one allocation result per obligation |
| RevrecMain.BuildAllocation | AccrueSmart_Enterprise_v3_software/revrec/backend/app/main.py:11-25 | the loop computes the response |
| RevrecMain.BuildAllocationShape | AccrueSmart_Enterprise_v3_software/revrec/backend/app/main.py:11-25 | one allocation result per obligation with its share of the price, and schedules for exactly the scheduled obligations |
| LegacyMain.PoSchedule | AccrueSmart_Enterprise_v3_software/legacy/backend/app/main.py:19-30 | a straight-line obligation missing a date and a point-in-time obligation missing its start get an empty schedule |
| LegacyMain.DispatchSchedule | AccrueSmart_Enterprise_v3_software/legacy/backend/app/main.py:21-30 | the method dispatch computes that schedule |
| LegacyMain.SchedulesKeys | AccrueSmart_Enterprise_v3_software/legacy/backend/app/main.py:19-30 | every obligation id is a key, and nothing else is |
| LegacyMain.SchedulesLookup | AccrueSmart_Enterprise_v3_software/legacy/backend/app/main.py:19-30 | when no later obligation shares an obligation's id, that obligation's key holds its schedule |
| LegacyMain.ScheduleLoop | AccrueSmart_Enterprise_v3_software/legacy/backend/app/main.py:19-30 | the loop computes the schedule dictionary and one allocation result per obligation |
| LegacyMain.BuildAllocation | AccrueSmart_Enterprise_v3_software/legacy/backend/app/main.py:16-31 | the loop computes the response |
| LegacyMain.BuildAllocationShape | AccrueSmart_Enterprise_v3_software/legacy/backend/app/main.py:16-31 | one allocation result per obligation with its share of the price, and one schedule per obligation id |
| LegacyMain.Kept | AccrueSmart_Enterprise_v3_software/legacy/backend/app/main.py:39 | the kept obligations are exactly those whose id is not removed |
| LegacyMain.ModifiedPos | AccrueSmart_Enterprise_v3_software/legacy/backend/app/main.py:39 | the modified list holds the kept base obligations and ends with the added ones |
| LegacyMain.NewPrice | AccrueSmart_Enterprise_v3_software/legacy/backend/app/main.py:40 | the new price is within half a cent of the base price plus the delta, and exact for a whole-cent delta |
| LegacyMain.Delta | AccrueSmart_Enterprise_v3_software/legacy/backend/app/main.py:48 | the delta covers the union of periods, each holding new less old |
| LegacyMain.CopyBefore | AccrueSmart_Enterprise_v3_software/legacy/backend/app/main.py:52-53 | the first loop copies the original amounts before the effective month |
| LegacyMain.CopyFromStep | AccrueSmart_Enterprise_v3_software/legacy/backend/app/main.py:54-55 | one step of the second loop copies a new amount from the effective month on and leaves earlier months alone |
| LegacyMain.CopyFrom | AccrueSmart_Enterprise_v3_software/legacy/backend/app/main.py:54-55 | the second loop adds the new amounts from the effective month on |
| LegacyMain.CatchupCore | AccrueSmart_Enterprise_v3_software/legacy/backend/app/main.py:48-56 | the loops compute the delta, the catch-up and the final schedule |
| LegacyMain.CatchupIsShift | AccrueSmart_Enterprise_v3_software/legacy/backend/app/main.py:49 | the catch-up is the revenue the modified contract recognises before the effective month less what the original recognised there |
| LegacyMain.SplicedParts | AccrueSmart_Enterprise_v3_software/legacy/backend/app/main.py:52-55 | before the effective month the spliced schedule is the original, from it on it is the modified one |
| LegacyMain.FinalTotal | AccrueSmart_Enterprise_v3_software/legacy/backend/app/main.py:52-56 | the final schedule, catch-up included, recognises exactly the modified contract's total |
| LegacyMain.FinalValues | AccrueSmart_Enterprise_v3_software/legacy/backend/app/main.py:52-56 | earlier months keep the original amounts, later months take the modified ones, and the effective month takes the modified amount plus the catch-up |
| LegacyMain.NoOpModification | AccrueSmart_Enterprise_v3_software/legacy/backend/app/main.py:48-56 | a modification that changes nothing books no catch-up; the final schedule is the original one, with the effective month added as a zero entry when it was not already there |
| LegacyMain.EffectiveKeyOrder | AccrueSmart_Enterprise_v3_software/legacy/backend/app/main.py:49-55 | comparing a period key with `effective_date[:7]` as text is comparing month indexes |
| LegacyMain.ModifyCatchup | AccrueSmart_Enterprise_v3_software/legacy/backend/app/main.py:37-58 | the endpoint computes the specified result |
| LegacyMain.ModifyCatchupPosts | AccrueSmart_Enterprise_v3_software/legacy/backend/app/main.py:49-57 | the posting moves the catch-up from deferred revenue to revenue in the effective month, and the final schedule totals the modified contract's revenue |
| Posting.Ledger.constructor | backend/app/posting.py:6-11 | a new ledger file starts with the header row, an existing one keeps its rows |
| Posting.Ledger.Post | backend/app/posting.py:13-16 | `post` appends exactly one row and returns ok with the path |
| Posting.Postings | backend/app/posting.py:25-31 | one posting per schedule row, with its period and amount and the given accounts and memo |
| Posting.PostRows | backend/app/posting.py:24-31 | posting rows appends their postings in order and returns one receipt per row |
| Posting.PostRevenueSchedule | backend/app/posting.py:18-26 | the ledger gains exactly the revenue postings, one receipt each |
| Posting.PostCommissionSchedule | backend/app/posting.py:28-32 | the ledger gains exactly the commission postings, one receipt per period |
| Posting.PostingsKeepRows | backend/app/posting.py:24-25 | the postings carry the rows' periods and amounts, in order |
| Posting.RevenuePostingsPeriods | backend/app/posting.py:19-24 | revenue is posted once per period any obligation uses, in ascending order |
| Posting.RevenuePostingsAmounts | backend/app/posting.py:19-25 | each revenue posting debits deferred revenue, credits revenue, and carries the period's total over all obligations |
| Posting.RevenuePostingsTotal | backend/app/posting.py:18-26 | the revenue postings total all the obligations' schedules |
| Posting.CommissionPostingsShape | backend/app/posting.py:30-31 | commission is posted once per period in ascending order, debiting expense and crediting deferred cost with the period's amount |
| Posting.CommissionPostingsTotal | backend/app/posting.py:28-32 | the commission postings total the commission schedule |
| Reporting.Values | backend/app/reporting.py:37 | the amounts at the listed periods, in that order |
| Reporting.SumSortedValues | backend/app/reporting.py:37 | summing a schedule in period order gives its total |
| Reporting.RowsTotal | backend/app/reporting.py:14 | the sorted rows of a schedule add up to its total |
| Reporting.SameSchedule | backend/app/reporting.py:13 | two schedules with the same periods and amounts are the same |
| Reporting.AddSchedule | backend/app/reporting.py:12-13 | the inner loop adds one obligation's amounts into the running total |
| Reporting.SummarizeSchedules | backend/app/reporting.py:9-14 | the loops compute the sorted rows of the summed schedules |
| Reporting.SummaryPeriods | backend/app/reporting.py:9-14 | the summary lists each period any obligation uses, once, in ascending order |
| Reporting.SummaryAmounts | backend/app/reporting.py:11-13 | each summary row holds the sum over the obligations of their amounts in that period |
| Reporting.SummaryTotal | backend/app/reporting.py:9-14 | the summary totals all the obligations' schedules |
| Reporting.FlattenTotal | backend/app/reporting.py:9-14 | the summed schedule totals the obligations' totals |
| Reporting.RollforwardClosing | backend/app/reporting.py:37-38 | each closing balance is the opening less the amounts so far |
| Reporting.RollForward | backend/app/reporting.py:36-39 | the roll-forward loop computes those closing balances |
| Reporting.RpoIsUnrecognised | backend/app/reporting.py:54 | the remaining performance obligations are the price less all recognised revenue |
| Reporting.ScheduleRollforward | backend/app/reporting.py:36-39 | rolling a schedule forward in period order ends at the opening less its total |
| Reporting.DeferredEndsAtRpo | backend/app/reporting.py:33-54 | deferred revenue falls by each period's revenue and ends at the remaining performance obligations |
| Reporting.CommissionFullyExpensed | backend/app/reporting.py:61-65 | the deferred commission cost is zero after the last period |
| Repository.Without | backend/app/repository.py:14 | the records kept are exactly those with another id |
| Repository.Select | backend/app/repository.py:19 | the records selected are exactly those whose id is among the ids |
| Repository.ContractRepo.constructor | backend/app/repository.py:5-9 | a new store is empty, an existing one keeps its records |
| Repository.ContractRepo.List | backend/app/repository.py:10-11 | `list` returns the stored records |
| Repository.ContractRepo.Save | backend/app/repository.py:12-16 | `save` drops every record with the contract's id, appends the contract, and returns the new count |
| Repository.ContractRepo.GetMany | backend/app/repository.py:17-19 | every record for no ids, otherwise the selected records in stored order |
| Repository.UpsertLeavesOne | backend/app/repository.py:14 | after saving, exactly one record carries the saved id, and it is the last |
| Repository.NoneLeft | backend/app/repository.py:14 | filtering by an id leaves no record with that id |
| Repository.CountAppend | backend/app/repository.py:14 | counting an id over a concatenation adds the counts |
| Repository.WithoutKeepsOrder | backend/app/repository.py:14 | filtering keeps the relative order of the records it keeps |
| Repository.SelectKeepsOrder | backend/app/repository.py:19 | selecting keeps the stored order |
| Repository.SaveNewAppends | backend/app/repository.py:14 | saving a contract whose id is not stored keeps every record and appends it |

## Left out

- The HTTP layer is not modelled: FastAPI endpoints, the routers, the `auth.py` stub, the Streamlit app and the frontend are transport and UI. The endpoint bodies of the three `main.py` files are modelled only where they compute (`build_allocation`, `modify_catchup`).
- PDF rendering is not modelled: ReportLab calls, `disclosure_pack.py` and `revrec/backend/app/reporting.py`. Of the backend `reporting.py`, only the schedule summary and the roll-forward arithmetic are modelled, not the page layout.
- Persistence is abstracted. The ledger CSV and the contract JSON file are `seq` fields of `Posting.Ledger` and `Repository.ContractRepo`. File reads and writes, `ledger.py`, the CRUD modules, `db.py`, `codes.py` (asyncpg) and `locks.py` (SHA-256 hashing) are not part of this model.
- `forecast.py` is not part of this model: it depends on pandas/numpy smoothing.
- Lease present value and interest (`leases.py:79,112-146`) use exact `real` arithmetic and an exact power `PowNat`, so float exponentiation and its error are not captured. Each figure written to a row is still rounded to the cent.
- `infer_monthly_irr` and `export_csv` in `sfc_effective.py` are not modelled: the first calls numpy's IRR and the second writes a file. `EffectiveInterest.InterestSchedule` takes the annual rate as given, so the branch that infers a missing rate is not modelled.
- Regular expressions are abstracted as substring tests (`Text.Contains`), whole-word matches for the `\b...\b` patterns (`Text.WordMatchAt`) and digit scans. Case folding is ASCII-only, digits are the ASCII digits, and word characters for `\b` are ASCII only: Python's Unicode-aware `\w` would also count accented letters, so a keyword directly after one ("éhardware") matches in the model but not in the source.
- `find_total_price`, `detect_risks` and `extract_commission` in `nlp_rules.py` are not modelled: they depend on the regex engine.
- `amounts_found` (`backend/app/ai.py:19-20`), every number of the whole text with an optional `$`, is not modelled: `BackendAi.ContractParseText` returns only the obligations. The per-line SSP regex at `backend/app/ai.py:17` is the one read as `BackendAi.FirstNumberCents`, which takes the leftmost digit run and an optional two-digit fraction after thousands separators are removed, as the source does.
- `ocr.py`, `ingest_pdf_cli.py`, `parsing_pipeline.py`, the mocked `LLMGateway`, the `ai_tax_memo` formatting and the unused gateway in `classify_expense` are not part of this model.
- Money is modelled as integer cents with half-even rounding (`Money.RoundHalfEven`), not as binary floats. Each `round(x, 2)` is one rounding of the exact value, so results that differ only by float representation error are not captured.
- `util.py`'s `to_float` is a parse with an exception fallback and is not modelled.
- The legacy `engine.py` and the legacy `schemas.py` are not part of this model. The legacy `build_allocation` is modelled with the backend engine's allocation and schedule builders.
- Line 14 of the legacy `main.py` is not valid Python and is not modelled. Lines 42-46 are mis-indented: `sum_map`'s body is only `out={}`, and lines 44-46 run in `modify_catchup`'s own body, where `m` is undefined, so the endpoint raises `NameError` at line 44 before `sum_map` is ever called; `LegacyMain` models the evident intent instead, a per-period sum of all obligation schedules, as `backend/app/reporting.py:9-13` does.
- `LegacyMain.ModifyCatchup` returns the journal entry it posts as data rather than writing CSV.
- `BackendAi.SuggestSsp` takes the median of the history in cents, rounded half-even. For an odd-length history this is exact; an even-length history's mean of the two middle values is exact before the single rounding.
- Every ISO date string the source parses is taken as an already parsed `Date` (or `Option<Date>` where it may be absent). The `ValueError` that `date.fromisoformat` raises on a malformed date string is not modelled anywhere: obligation dates (`backend/app/main.py:34,36,46,59`, `AccrueSmart_Enterprise_v3_software/revrec/backend/app/main.py:22,24`), the lease dates of `Leases.ComputeSchedule` (`AccrueSmart_Enterprise_v3_software/revrec/backend/app/services/leases.py:105-106`, so `Leases.ComputeScheduleErrors` lists only the two division errors), the rule dates of `RevrecCodes.ApplyRule` (`AccrueSmart_Enterprise_v3_software/revrec/backend/app/services/revrec_codes.py:89,92`) and the milestone `met_date` of `Recognition.Milestones` (`backend/app/engine.py:27`, `AccrueSmart_Enterprise_v3_software/revrec/backend/app/schedule_logic.py:49`). The expensed commission key at `backend/app/main.py:48` is the raw `start_date[:7]`; the model takes the month of the parsed date, which agrees for every well-formed date.
- A percent-complete row's period is a `Period` value rather than the free string `r["period"]`. The `KeyError` of a row without a period (`backend/app/engine.py:33`) is not modelled, and the sorting of periods as text (`backend/app/posting.py:24`, `backend/app/reporting.py:14`, `AccrueSmart_Enterprise_v3_software/legacy/backend/app/sfc_effective.py:12` in `EffectiveInterest.InterestSchedule`, `AccrueSmart_Enterprise_v3_software/legacy/backend/app/consolidation.py:25` in `Consolidation.Rows`) is modelled as sorting periods by month, which agrees for `YYYY-MM` keys only.
- The legacy modification's added obligations are typed as `Po` values. In the source they are the untyped dicts of `modification['add_pos']` (`AccrueSmart_Enterprise_v3_software/legacy/backend/app/main.py:39-40`), which `model_copy(update=...)` does not validate, so `build_allocation(new)` would fail at `po.ssp` (line 16); the model follows the evident intent of validated obligations.
- An intercompany row's period is mandatory in the model. The source reads it with `m.get("period")` (`AccrueSmart_Enterprise_v3_software/legacy/backend/app/consolidation.py:23`), so a row without one adds a `None` key, and sorting it with the text keys at line 25 raises `TypeError`; that failure is not modelled.
- Dates have no year range (`Calendar.Date.Valid` checks only month and day). Python's `datetime.date` accepts only years 1 to 9999, so month arithmetic that leaves year 9999 raises `ValueError` in the source, while the model goes on into year 10000. This affects `Calendar.AddMonths` and `Calendar.DaterangeMonths` (for example `Recognition.StraightLine` up to 9999-12-31, where `daterange_months` builds `date(10000, 1, 1)` after the last month), `Recognition.AmortizeCommission`, `RevrecCodes.MonthAdd`, `Leases.AddMonthsClamped` and the loyalty schedules `Variable.LoyaltySchedule` and `VariableV1.LoyaltyScheduleV1` whenever their months run past 9999-12.
- Audit findings are assumed to be dictionaries, as the router describes them. `summarize_audit` (`AccrueSmart_Enterprise_v3_software/revrec/backend/app/services/auditor.py:20-27`) accepts any JSON value: for a list, `"errors" in v` tests list membership, and for a number it raises `TypeError`; neither is modelled.
- The schema files only shape the datatypes: the recognition method as a string tag, milestone `percent_of_price` as a `real`, and the variable-consideration defaults as explicit parameters. Pydantic's range validation is not modelled.
- Auditor.Note: states only that the note starts with `"<module>: "`. The text after the prefix follows the score's precedence in the body but is not stated in the contract.
- BackendAi.PoId: states only the `"PO-"` prefix. `BackendAi.PoIdOrder` shows that, for indices up to 99, distinct indices give distinct ids and the ids sort as the indices do.
- BackendAi.FirstNumberCents: states that there is no number exactly when there is no digit, and that a number is non-negative. Its value is pinned by separate lemmas: `BackendAi.NumberRoundTrip`, `BackendAi.NumberAfterText` and `BackendAi.NumberWithCents`, for a number written after digit-free text, with or without a point and two digits.
- Costs.CostWeightErrors: does not state the error for a percent-complete list whose weights sum to zero or less. That branch is in `Costs.Weights` and `Costs.AmortizeCostErrors`.
- LegacyMain.PoSchedule: states only the cases that give an empty schedule. The other cases are those of `BackendMain.PoSchedule`, whose builders the legacy code uses.
- Where the written description and the code differ, the model follows the code. When the SSPs sum to zero, `allocate_relative_ssp` gives every obligation zero rather than splitting the price evenly (`Allocation.AllocationZeroSum`). Percent complete takes each month's increment from the previous row, even after a dip, so a later rise is recognised again; `Recognition.PercentCompleteRecountsAfterDip` exhibits it.

## Findings

| source | as written | input that shows it | evidently intended | confidence | as-written member | corrected member |
|---|---|---|---|---|---|---|
| AccrueSmart_Enterprise_v3_software/revrec/backend/app/services/expenses.py:24-32 | every month expenses `round(amount / months, 2)`; there is no last-month true-up | 200.00 over 3 months: 66.67 three times, and the final remaining balance is -0.01 | the last month absorbs the rounding, so the expenses total the amount and the balance ends at zero, as the other schedule builders do | not executed | Expenses.PrepaidOvershoot | Expenses.CorrectedPrepaidTiesOut |
| AccrueSmart_Enterprise_v3_software/revrec/backend/app/services/costs.py:65-72 | the drift fix can make the last amount negative, and `min(opening, amt)` amortizes it, because nothing clamps it at zero | 0.03 over 5 straight-line months: amounts 0.01, 0.01, 0.01, 0.01, -0.01; the fifth row amortizes -0.01, closes at 0.01 and the total amortization is 0.02 | the amortization is clamped to between zero and the opening balance, so the schedule closes at zero and amortizes exactly the cost | not executed | Costs.CostOvershoot | Costs.CorrectedCostTiesOut |
