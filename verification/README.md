# Household asset projection, modelled in Dafny

This project models the year-by-year projection engine of a small household
asset simulator, the loop in `main()` of `app.py`. The engine carries four
balances: cash, a 401k retirement account, a NISA tax-advantaged account and
a general investment account ("Other", `paypay` in `app.py`). It records a
snapshot for the current age. Then, for every later age up to the end age,
it applies these stages in order and records the result:

1. investment growth;
2. the working-age salary and extra expense;
3. the pension;
4. the inflation-compounded base cost;
5. the regular contributions;
6. the one-time 401k payout;
7. the one-off events;
8. the net cash flow;
9. shortfall resolution from the NISA and general accounts;
10. the "dam" sweep of surplus cash into the NISA account.

Modules, in dependency order:

- `Money` (`money.dfy`): the NISA yearly allowance, `Min`/`Max`, `Pow`, and
  `Trunc`, which is Python's `int()` on a float and truncates toward zero.
- `Inputs` (`inputs.dfy`): the immutable `Config`, the widget ranges as the
  predicate `Valid`, the age-bracket tables and the one-off events.
- `Balances` (`balances.dfy`): the four-balance `State` and the integer
  `Record` a snapshot produces.
- `Shortfall` (`shortfall.dfy`): `WithdrawAsset` and `Resolve`, the
  shortfall step.
- `Dam` (`dam.dfy`): the reserve level and the surplus sweep.
- `Engine` (`engine.dfy`): a year's flows, the stages of a year, `Step`, and
  the whole run. The run is written two ways: recursively as `Run`, and as
  the loop in `Project`/`Simulate`, which is proved equal to `Run`.
- `Projection` (`projection.dfy`): properties of whole runs.

Money is an exact `real` number of yen. Rates are fractions. Inputs that the
widgets take in units of 10,000 yen are stored already multiplied out. The
widget ranges are not a precondition of the engine itself. They appear as
`Valid(cfg)` only on the properties that need them, such as non-negative
balances. The step is generic in `Trace`, `Advance` and `Project`: they take
any yearly step function, and `StepOf(cfg)` supplies the real one. This lets
run-level facts be proved once, by induction over years (`AdvanceKeeps`).

Behaviour of `app.py` that the model keeps:

- NISA has no principal (cost basis) and no lifetime cap, only the yearly allowance;
- shortfall withdrawals have no per-asset cap and no tax;
- the pension is not taxed;
- a record holds only the age, the total and the four balances (app.py:270-277);
- the sweep into NISA continues past the NISA stop age;
- the extra expense is charged only while working;
- a record's total is the exact sum truncated to whole yen, not the sum of the truncated balances;
- the 401k is zero from the payout age on only when the run starts before
  the payout age. When it starts at or after it, the 401k keeps its opening
  balance for the whole run (`Projection.K401FrozenPastPayout`).

## Model

| member | source | states |
|---|---|---|
| Money.Pow | app.py:183 | A positive base gives a positive power; a base of at least 1 gives a power of at least 1; a base in (0, 1] gives a power of at most 1 |
| Money.TruncIsTruncation | app.py:146-150 | `int()` on a float drops the fractional part toward zero and never makes a non-negative value negative |
| Money.TruncNegativeIff | app.py:303 | A truncated value is negative exactly when the real value is at most -1 |
| Money.TruncOfSumClose | app.py:272-276 | Truncating four parts separately and truncating their sum differ by at most 4 |
| Inputs.EventTotal | app.py:208-216 | The year's one-off total is non-negative when every amount is, and zero when no event's age matches the year |
| Inputs.EventTotalOfThree | app.py:208-216 | With the three slots the inputs provide, the year's total adds each slot's amount exactly when that slot's age equals the year |
| Inputs.EventTotalAtLeastEachMatch | app.py:208-216 | Every event whose age equals the year is counted in that year's total |
| Balances.SnapshotTruncates | app.py:270-277 | Every figure of a record truncates the same state's exact value; the total truncates the exact sum and is within 4 of the sum of the truncated parts |
| Balances.TotalMayDifferFromSumOfParts | app.py:272-276 | Four half-yen balances record as 0 each but total 2, so a record's total need not equal the sum of its parts |
| Shortfall.WithdrawAsset | app.py:228-233 | Paid plus left equals the balance; a locked asset pays nothing; an unlocked asset pays at most the need and the balance, and either covers the need or is emptied; with non-negative inputs, 0 ≤ paid ≤ needed and left ≥ 0 |
| Shortfall.Resolve | app.py:224-249 | Non-negative cash changes nothing; the 401k is untouched; cash + NISA + Other is conserved; negative cash stays ≤ 0; a locked asset is unchanged; withdrawals never take an asset below zero; remaining cash is minus whatever part of the shortage the unlocked balances cannot cover |
| Shortfall.ResolvedExactlyWhenCovered | app.py:224-249 | After resolution, cash is exactly 0 if and only if the unlocked NISA and Other balances cover the shortage |
| Shortfall.PriorityOrder | app.py:236-247 | The second asset is drawn on only when the first is locked or emptied; an unlocked first asset that covers the shortage leaves the second unchanged and cash at 0 |
| Dam.TargetCoarsensBrackets | app.py:253-255 | The reserve level is the five-bracket age table with the under-30, 30s and 40s brackets merged |
| Dam.SweepAmount | app.py:257-264 | Nothing moves unless cash exceeds the reserve level; the amount lies between 0 and the surplus; with a regular contribution within the allowance, contribution plus amount stays within 3,600,000; the amount is the surplus or the remaining allowance |
| Dam.Sweep | app.py:253-267 | Cash + NISA is conserved; the 401k and Other are unchanged; at or below the reserve level nothing changes; after a sweep cash is between the reserve level and its old value; NISA never decreases; the NISA inflow keeps the year within the allowance |
| Engine.Initial | app.py:136-139 | The run opens with the configured balances, none of them negative within the widget ranges |
| Engine.BaseCost | app.py:182-185 | While working, the base cost is the flat monthly figure times 12 |
| Engine.BaseCostRecurrence | app.py:182-185 | The base cost is flat up to the last working age and grows by one plus inflation each year after it |
| Engine.FlowsAt | app.py:162-216 | No salary, extra expense, 401k, NISA or Other contribution after the last working age; bracketed salary and extra expense while working; the 401k contribution while working before the payout age; the NISA contribution min(monthly × 12, 3,600,000) while working up to the NISA stop age; the Other contribution while working up to its stop age; pension from the pension age; no 401k, NISA or Other contribution past the payout or the respective stop age; NISA contribution within the allowance; event totals by exact age |
| Engine.FlowsNonNegative | app.py:162-216 | Within the widget ranges, no salary, pension, event income or contribution is negative |
| Engine.RegularNisaCapNeverBinds | app.py:191-192 | Within the widget ranges, the regular NISA contribution is the monthly amount times 12 whenever it is due; the 3,600,000 cap never cuts it |
| Engine.Grow | app.py:155-160 | From the payout age on, the 401k does not grow |
| Engine.GrowKeepsAssets | app.py:155-160 | With the non-negative rates the widgets allow, growth never shrinks an investment balance |
| Engine.Contribute | app.py:196-199 | Each account is credited its own contribution (401k, NISA, Other) and cash is left alone, so the total rises by exactly the year's contributions |
| Engine.Payout | app.py:201-205 | Outside the payout year nothing changes; in it the 401k becomes 0, NISA and Other are unchanged, and the total falls by exactly the payout tax, so cash rises by the 401k balance times (1 - tax) |
| Engine.StepLedger | app.py:155-267 | Over a year the total changes by growth, income minus spending, and the payout tax, and nothing else: contributions, payout, withdrawals and sweep only move money |
| Engine.SettleLedger | app.py:196-267 | From the grown balances, the rest of the year changes the total only by income, spending and payout tax |
| Engine.QuietStepKeepsTotal | app.py:155-267 | With no rates, income, spending or tax, a year keeps the total |
| Engine.StepKeepsAssets | app.py:155-267 | Within the widget ranges, a year keeps the 401k, NISA and Other balances non-negative |
| Engine.StepK401 | app.py:159-205 | Before the payout age the 401k grows and takes its contribution; in the payout year it becomes 0; afterwards it is unchanged |
| Engine.K401NeverShrinksBeforePayout | app.py:159-199 | Within the widget ranges, before the payout age the 401k never shrinks from one year to the next |
| Engine.NisaYearlyInflowCapped | app.py:190-264 | Within the widget ranges, the regular NISA contribution plus the sweep is at most 3,600,000 a year, and the year's NISA balance exceeds its grown balance by at most that |
| Engine.SweepContinuesAfterNisaStop | app.py:253-267 | Past the NISA stop age, surplus cash still moves into NISA, up to the full allowance |
| Engine.Trace | app.py:153-277 | One record per age after the start age up to the end age, in increasing age order |
| Engine.TraceFollowsAdvance | app.py:153-277 | Record j of a trace is the snapshot of the state j + 1 years on |
| Engine.Run | app.py:143-277 | A run has end − current + 1 records when the end age is at least the current age, at least one record always, and record i is for age current + i |
| Engine.Project | app.py:143-277 | The loop produces the opening snapshot followed by the recursive trace, for any yearly step |
| Engine.Simulate | app.py:133-277 | The loop over a configuration produces exactly `Run(cfg)`, with end − current + 1 records when the end age is at least the current age |
| Projection.RunFollowsStates | app.py:144-277 | Record i of a run is the snapshot at age current + i of the state after i years |
| Projection.AssetsStayNonNegative | app.py:153-267 | Within the widget ranges, the 401k, NISA and Other balances are never negative in any year |
| Projection.K401EmptyFromPayout | app.py:201-205 | When the run starts before the payout age, the 401k is 0 in every year from the payout age on |
| Projection.K401FrozenPastPayout | app.py:159-160 | When the run starts at or after the payout age, the 401k keeps its opening balance in every year |
| Projection.RecordsShowEmpty401k | app.py:270-277 | When the run starts before the payout age, every record from the payout age on shows a 401k of 0 |
| Projection.DepletedIff | app.py:303 | The depletion warning appears exactly when the final exact total is at most -1 yen |
| Projection.DepletedIffAnyStep | app.py:303 | The same, for a run with any yearly step |
| Projection.QuietKeepsTotal | app.py:153-267 | With no rates, income, spending or tax, the exact total never changes |
| Projection.QuietRecordsKeepTotal | app.py:270-277 | With no rates, income, spending or tax, every record shows the truncated opening total |

## Left out

- The Streamlit page, sidebar widgets, rules text and result cards (app.py lines 6-130 and 279-306) are left out. The widgets appear only as the `Config` fields and the ranges in `Valid`. Their integer steps (whole yen, units of 10,000 yen) are not modelled; any real within range is allowed.
- The pandas table and the plotly chart are left out as presentation. Of the results section, only the depletion test on the last total is modelled (`Projection.Depleted`).
- IEEE floating-point rounding is not modelled: balances and rates are exact reals, so `int()` truncation applies to exact values.
- The unused `asset_name` argument of `withdraw_asset` is dropped.
- Shortfall.Resolve: it does not state the exact per-asset amounts drawn. It states conservation, bounds, the remaining cash and the priority order; `Shortfall.PriorityOrder` covers the order.
- Engine.FlowsAt: its contract does not give the base cost, which is stated by `Engine.BaseCost` and `Engine.BaseCostRecurrence`.
- Engine.Grow: its contract states only that the 401k stops growing from the payout age. Each balance being multiplied by one plus its rate is not restated, since that would only repeat the body; `Engine.GrowKeepsAssets` and `Engine.StepK401` state its effects.
- Engine.BaseCost: its contract gives only the working-years value. The compounding after the last working age is stated by `Engine.BaseCostRecurrence`.
- Inputs.EventTotal: its contract gives only bounds. The exact value for the three slots is stated by `Inputs.EventTotalOfThree`.
