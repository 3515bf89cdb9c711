# Charter network ten-year forecast and Obligated-Group rent smoothing

This project models the forecast engine of a charter-school network's
ten-year scenario planner (`streamlit_app.py`). The engine works in four steps:

- **Forecast each school.** A `School` keeps its enrollment and its
  Obligated-Group (OG) flag. Its `forecast` writes one row per year. Each row
  holds enrollment, gross revenue, the Home Office management fee, personnel
  cost, fixed operations and the school's base rent obligation.
  - Per-pupil revenue compounds at the COLA.
  - Per-pupil personnel cost compounds at the salary step.
  - Fixed cost grows 2% a year. `forecast` does this by updating the school's
    own `fixed_cost` field.
  - A growth school adds 100 pupils before each year's row is written.
- **Build the fleet.** The fleet has seven legacy schools of 500 pupils. A
  school is in the OG when its name contains "(OG)". An optional growth school
  ("CWB") starts at 150 pupils, and a scenario flag decides whether it joins
  the OG.
- **Charge rent, year by year.**
  - With smoothing on and a non-empty OG, the pool's debt service is spread
    over its members by enrollment. Those rows are noted "Smoothed".
  - Otherwise every row pays its own obligation, noted "Fixed".
  - Every school outside the OG pays its lease, noted "Lease".
  - Then each row's net income and margin are computed.
- **Aggregate.** The Home Office's revenue is the sum of each year's fees. A
  debt-service-coverage proxy is computed over the rows noted "Smoothed".

The model follows the code as written, except that the whole run uses the
corrected rent pass (see "Findings" and "Left out"). Scenario sliders and checkboxes are
parameters (`Common.Scenario`). Money and rates are `real`, and enrollment
is `int`. Data frames are sequences of `Table.Row`.

Each part takes the form of the code it models:
- `School` is a class. Its mutable `fixedCost` is updated in place by
  `Forecast`, which is a loop proved against the closed-form rows of
  `ForecastRow`.
- The per-year rent pass is an in-place loop over an array of rows, proved
  against the value-level `SmoothSpec`.
- Net income, margin, Home Office revenue and the coverage proxy are
  functions with lemmas.

The rent pass addresses rows by their data-frame index label. Every row of a
year carries the same label (see "Findings"), so the code as written and the
evidently intended behaviour differ. Both are modelled. The rest of the model
(`Simulation.Simulate` and everything after it) uses the intended per-row
pass, `Smoothing.SmoothYear`.

Modules, in dependency order:
- `Common`: scenario, compounding, substring test.
- `Table`: rows, column sums, year filter.
- `Projector`: the `School` class and its forecast.
- `Smoothing`: OG selection and the rent pass, both as intended and as written.
- `Settlement`: net income and margin.
- `Fleet`: the roster.
- `Simulation`: the whole run.
- `Consolidation`: Home Office revenue and the coverage proxy.
- `Findings`: the as-written pass applied to the real fleet.

## Model

| member | source | states |
|---|---|---|
| Common.CompoundedMonotone | streamlit_app.py:41-42 | a non-negative base compounded by a factor of at least 1 stays non-negative and never falls year on year |
| Common.CompoundedGrows | streamlit_app.py:73-75 | a positive base compounded by a factor above 1 exceeds the base from year 2 on |
| Common.CompoundedContinue | streamlit_app.py:34 | restarting from the value reached after `years` steps continues the same series |
| Table.InYear | streamlit_app.py:104 | the year filter keeps no more rows than it is given, and every kept row is of that year |
| Table.InYearFrom | streamlit_app.py:104 | every row the year filter keeps comes from its input |
| Table.InYearAppend | streamlit_app.py:97 | filtering a concatenation equals concatenating the filtered parts |
| Table.InYearAll | streamlit_app.py:104 | a block whose rows are all of year y filters to itself |
| Table.InYearNone | streamlit_app.py:104 | a block with no row of year y filters to nothing |
| Table.TotalMonotone | streamlit_app.py:143 | rows that are pointwise no larger in a column give a column sum no larger |
| Projector.ForecastRowsShape | streamlit_app.py:44-70 | a forecast over n years has n rows; row k is year k+1 with label k, the school's name, net income 0 and no rent yet |
| Projector.EnrollmentRule | streamlit_app.py:40-47 | a legacy school's enrollment stays its start enrollment; a growth school's is start + 100·y, so it is already one step up in year 1 and gains 100 a year |
| Projector.GrossNonDecreasing | streamlit_app.py:50 | with COLA ≥ 0 and a non-negative start enrollment, gross revenue never falls from one year to the next |
| Projector.RowRelations | streamlit_app.py:53-68 | fee = gross × fee share, and lies between 10% and 20% of gross over the slider range; base rent is 600000 for an OG school and 400000 otherwise, the same in every year |
| Projector.FixedOpsCarryOver | streamlit_app.py:67-75 | a second forecast's Fixed Ops in year y equal the first forecast's in year years + y |
| Projector.FixedOpsNotIdempotent | streamlit_app.py:67-75 | with a positive fixed cost, a second forecast starts at a strictly higher Fixed Ops than the first |
| Projector.School.constructor | streamlit_app.py:26-35 | a new school holds its name, start enrollment and flags, with fixed cost 200000 |
| Projector.School.Forecast | streamlit_app.py:37-77 | returns exactly the closed-form rows for years 1..years and leaves the fixed cost inflated 2% for each year forecast |
| Projector.ForecastTwice | streamlit_app.py:37-77 | two forecasts of the same school object give 10 rows each and differ: the second starts at the fixed cost the first left behind |
| Fleet.FleetProfiles | streamlit_app.py:83-91 | the fleet has 7 schools, or 8 with the growth school |
| Fleet.BuildFleet | streamlit_app.py:80-91 | builds fresh, distinct school objects whose profiles are the fleet's, each at the initial fixed cost |
| Fleet.LegacyOgMarker | streamlit_app.py:83-85 | a legacy name contains "(OG)" exactly for schools A to E |
| Fleet.LegacyNotGrowth | streamlit_app.py:83 | no legacy name contains "CWB" |
| Fleet.GrowthNameMarkers | streamlit_app.py:91 | the growth school's name contains "CWB" and not "(OG)" |
| Fleet.FleetHasPupils | streamlit_app.py:83-91 | every school of the fleet starts with pupils: exactly 500 for a legacy school and 150 for the growth school |
| Fleet.FleetSelectionMatchesIsOg | streamlit_app.py:85-108 | the name-based OG selection picks exactly the schools whose OG flag is set: A to E, plus the growth school when it joins |
| Smoothing.Members | streamlit_app.py:107-108 | the selected rows come from the year's rows and each one passes the OG name test |
| Smoothing.MemberInPool | streamlit_app.py:107-108 | every row that passes the OG name test is selected |
| Smoothing.SmoothWithAt | streamlit_app.py:118-129 | the rent pass changes only the rent of each row, and sets it by the row's own membership and the year's pool |
| Smoothing.SmoothYear | streamlit_app.py:103-129 | the in-place pass over one year's array leaves exactly the rows of the rent rule |
| Smoothing.SmoothMembers | streamlit_app.py:117-120 | the write loop charges each member row its enrollment × the rate, noted "Smoothed", and leaves every other row as it was |
| Smoothing.LeaseNonMembers | streamlit_app.py:126-129 | exactly the rows outside the pool are reset to their own obligation, noted "Lease"; member rows are left as they were |
| Smoothing.RentNoteRule | streamlit_app.py:110-129 | every row gets exactly one note: "Lease" iff not a member, "Smoothed" iff a member and smoothing applies, "Fixed" iff a member and it does not; a smoothed row pays enrollment × rate, every other row its own obligation; nothing else changes |
| Smoothing.NoSmoothingPaysOwnObligation | streamlit_app.py:121-129 | with smoothing off, every school pays exactly its own obligation and nothing is noted "Smoothed" |
| Smoothing.MembersOfSmoothed | streamlit_app.py:107-129 | selecting members after the pass gives the members charged by the pass |
| Smoothing.SmoothedPoolTotal | streamlit_app.py:115-119 | smoothed members together pay their enrollment total × the rate |
| Smoothing.FixedPoolTotal | streamlit_app.py:121-124 | unsmoothed members together pay their own obligations |
| Smoothing.PoolRentConserved | streamlit_app.py:110-124 | the pool's final rents add up to its base obligations, with smoothing on or off |
| Smoothing.SmoothedPoolConserved | streamlit_app.py:111-119 | under smoothing the members' charges add up to the pool's debt |
| Smoothing.UniformPoolRent | streamlit_app.py:111-120 | when all members have equal enrollment and equal obligation, each is charged exactly its own obligation |
| Smoothing.UniformRateOf | streamlit_app.py:111-115 | for a uniform pool the enrollment total is non-zero and enrollment × rate equals the obligation |
| Smoothing.SmoothedRentAt | streamlit_app.py:115-120 | a member under smoothing is charged its enrollment × pooled debt / pooled enrollment, noted "Smoothed" |
| Smoothing.UniformTotals | streamlit_app.py:111-112 | a uniform pool's sums are its size times the common enrollment and obligation |
| Smoothing.PoolEnrollmentPositive | streamlit_app.py:112-115 | if every row has pupils, a non-empty pool has a positive enrollment total, so the division of line 115 is defined |
| Smoothing.LastWithIndex | streamlit_app.py:118-120 | finds the last member among the first n that carries a label, or reports that none does |
| Smoothing.AfterWrites | streamlit_app.py:118-120 | label-addressed member writes change only a row's rent |
| Smoothing.SmoothYearAsWritten | streamlit_app.py:103-129 | the as-written pass over one year's array, with label-addressed writes and the label-based lease test, leaves exactly the rows of `AsWrittenSpec` |
| Smoothing.SmoothByIndex | streamlit_app.py:118-120 | after the write loop, each row holds the charge of the last member sharing its label, or is untouched |
| Smoothing.FixAll | streamlit_app.py:123-124 | every row gets its own obligation, noted "Fixed" |
| Smoothing.SetRentAtIndex | streamlit_app.py:119-120 | one `.at` write sets the rent of every row carrying the label and of no other |
| Smoothing.LeaseUnlabelled | streamlit_app.py:127-129 | exactly the rows whose label no member carries are reset to their obligation, noted "Lease" |
| Smoothing.IndexAmongIsLast | streamlit_app.py:127 | a label is among the members' labels iff some member carries it |
| Smoothing.AfterWritesStep | streamlit_app.py:118-120 | one more member write changes exactly the rows carrying that member's label |
| Smoothing.AsWrittenSharedIndex | streamlit_app.py:118-120 | when all rows share a label and smoothing applies, the as-written pass charges every row the last member's smoothed rent, noted "Smoothed" |
| Smoothing.LastMemberLabel | streamlit_app.py:95-120 | when a year's rows share one label, the last member written carries that label |
| Smoothing.AsWrittenNeverLease | streamlit_app.py:127-129 | when all rows share a label and a member exists, no row is noted "Lease" |
| Settlement.MarginPct | streamlit_app.py:133 | the margin is defined iff gross revenue is non-zero, and then margin × gross = 100 × net income |
| Settlement.Settle | streamlit_app.py:132-133 | gross = fee + personnel + fixed ops + final rent + net income; margin is the row's margin; no other column changes |
| Settlement.SettleAllAt | streamlit_app.py:132-133 | closing the year closes every row on its own |
| Settlement.SmoothedAllAssigned | streamlit_app.py:110-129 | every row leaves the rent pass with a rent written |
| Settlement.MarginSign | streamlit_app.py:133 | with positive gross revenue, the margin is positive iff net income is, and zero iff net income is |
| Settlement.MembersOfSettled | streamlit_app.py:132 | selecting members after the close gives the closed members |
| Settlement.SettledNetTotal | streamlit_app.py:132 | net incomes add up to pre-rent income less rent charged |
| Settlement.SmoothingKeepsPreRent | streamlit_app.py:118-132 | the rent pass leaves pre-rent income untouched and writes a rent on every row |
| Settlement.PooledNetIncome | streamlit_app.py:110-132 | the pool's combined net income is its pre-rent income less its debt service, smoothing or not |
| Settlement.SmoothingNeutralForPool | streamlit_app.py:21-132 | switching smoothing on or off leaves the pool's combined net income unchanged |
| Simulation.Simulate | streamlit_app.py:95-137 | the run returns exactly the concatenated year outputs of years 1..10 |
| Simulation.ForecastFleet | streamlit_app.py:95-97 | forecasting the schools in order and concatenating gives the fleet's raw table |
| Simulation.ProcessYears | streamlit_app.py:101-137 | the per-year loop appends each year's rent pass and close in year order |
| Simulation.ProcessYear | streamlit_app.py:101-135 | one pass of the loop, on a fresh buffer holding the year's rows, gives the year's output: the rent rule, then the close |
| Simulation.ConcatPrefix | streamlit_app.py:95-97 | appending one more school's forecast extends the concatenation of the schools before it |
| Simulation.ForecastYear | streamlit_app.py:44-61 | a school's forecast holds exactly one row for each year 1..n and none for other years |
| Simulation.ConcatYear | streamlit_app.py:95-104 | year y of the concatenated forecasts is one row per school, in fleet order |
| Simulation.FleetYearSnoc | streamlit_app.py:95-104 | the year-y rows of a fleet are those of all schools but the last, then the last school's row |
| Simulation.YearSlice | streamlit_app.py:95-104 | year y of the raw table is the fleet's forecast rows for y |
| Simulation.FleetYearFees | streamlit_app.py:53 | each school of a year pays the fee share of its own gross revenue |
| Simulation.ConcatPositive | streamlit_app.py:63-91 | every row of the fleet's forecast has pupils |
| Simulation.AllDataRateDefined | streamlit_app.py:115 | the division of the rent pass is defined in every year of the run |
| Simulation.YearOutputKeepsRows | streamlit_app.py:104-135 | the rent pass and close keep each row's year, school, label, enrollment, revenue, fee and obligation, and write a rent |
| Simulation.YearOutputInYear | streamlit_app.py:135-137 | a year's output holds only rows of that year |
| Simulation.OutputsYear | streamlit_app.py:135-137 | year y of the concatenated outputs is year y's output |
| Simulation.InYearSplit | streamlit_app.py:135-137 | appending year n's block to a table keeps year y's rows as they were for y < n, adds the block for y = n, and adds nothing for later years |
| Simulation.FullForecastYear | streamlit_app.py:101-137 | year y of the finished table is year y of the raw table after the rent pass and close |
| Simulation.YearSharesIndex | streamlit_app.py:95-104 | every row of year y carries the index label y − 1 |
| Simulation.LegacyPoolRent | streamlit_app.py:83-120 | with smoothing on and the growth school outside the pool, each of schools A to E is charged exactly 600000, noted "Smoothed" |
| Consolidation.SmoothedRows | streamlit_app.py:149 | the selected rows are all noted "Smoothed" |
| Consolidation.Coverage | streamlit_app.py:151-154 | the proxy is defined iff there are smoothed rows with non-zero debt, and then proxy × debt = net income + debt |
| Consolidation.FeeShareTotal | streamlit_app.py:143 | rows that each pay a share p of their gross revenue pay p times the total gross |
| Consolidation.FleetYearFeeShare | streamlit_app.py:143 | a year's fees are the fee share of the year's gross revenue |
| Consolidation.HomeOfficeRevenueOfFleet | streamlit_app.py:143 | Home Office revenue in year y is the fees the fleet pays in that year |
| Consolidation.HomeOfficeRevenueEveryYear | streamlit_app.py:143 | in every year 1..10, Home Office revenue is the fees the fleet pays in that year |
| Consolidation.FleetFeeShareOfYear | streamlit_app.py:143 | the fleet's fees in year y are the fee share of year y's gross revenue in the raw table |
| Consolidation.HomeOfficeRevenueIsFeeShare | streamlit_app.py:143 | Home Office revenue in year y is the fee share of the fleet's gross revenue in y |
| Consolidation.HomeOfficeRevenueNonDecreasing | streamlit_app.py:143 | with COLA ≥ 0 and a non-negative fee share, Home Office revenue never falls from one year to the next |
| Consolidation.FleetFeesGrow | streamlit_app.py:50-91 | with COLA ≥ 0 and a non-negative fee share, the fleet's total fees never fall from one year to the next |
| Consolidation.FleetFeesNonDecreasing | streamlit_app.py:50-73 | with COLA ≥ 0 and a non-negative fee share, a fleet's fees never fall year on year |
| Consolidation.SmoothedRowsArePool | streamlit_app.py:149 | when "Smoothed" marks exactly the members, the "Smoothed" rows are the pool |
| Consolidation.PoolDebtKept | streamlit_app.py:151 | the rent pass and close leave the pool's debt service as it was |
| Consolidation.YearCoverage | streamlit_app.py:149-154 | under smoothing, a year's proxy is the pool's pre-rent income over its debt service |
| Consolidation.PoolOwesEveryYear | streamlit_app.py:110-150 | with smoothing on, every year of the run has a non-empty pool with positive debt service |
| Consolidation.DscrIsPoolCoverage | streamlit_app.py:149-154 | with smoothing on, every year's proxy is defined and equals the pool's pre-rent income over its debt service: the value it would have with each member paying its own obligation |
| Findings.LegacyYear | streamlit_app.py:83-104 | without the growth school, a year has 7 rows sharing one label; row 5 is School F, a 400000 lease outside the pool; every member has 500 pupils |
| Findings.AsWrittenChargesLeaseSchool | streamlit_app.py:118-120 | with smoothing on and no growth school, the as-written pass charges School F 600000, noted "Smoothed"; the intended pass charges it its 400000 lease |
| Findings.AsWrittenMislabelsLease | streamlit_app.py:127-129 | with smoothing off and no growth school, the as-written pass notes School F "Fixed"; the intended pass notes it "Lease" |

## Left out

- The dashboard is not modelled (streamlit_app.py:6-21, 139-180). This covers the page setup, charts, captions, tables and the margin colouring. Slider and checkbox values are `Scenario` parameters, and their slider ranges are `Scenario.InRange`.
- Floating point is not modelled. Currency and rates are exact `real`s, so rounding in products and in the division at line 115 does not appear.
- The unused `net_revenue` (streamlit_app.py:54) is left out.
- Settlement.MarginPct: a zero gross revenue gives `None`. pandas gives an infinity or NaN there, and the model does not distinguish those values.
- Consolidation.Coverage: a zero debt gives `None`, where pandas would give a non-finite value. A year with no "Smoothed" row is absent from the grouping, and is also `None`.
- Consolidation.DscrProxy and Consolidation.HomeOfficeRevenue are definitions. Their properties are stated by the lemmas in the table above.
- Smoothing.SmoothSpec, Smoothing.SmoothWith, Smoothing.AsWrittenSpec, Settlement.YearOutput, Simulation.FleetYear and Settlement.SettleAll state only their lengths. What they mean is stated by SmoothWithAt, RentNoteRule, SettleAllAt and YearOutputKeepsRows.
- Pandas machinery is modelled only as far as it changes behaviour. Rows carry their index label, and the as-written pass addresses rows by that label. Column order, dtypes, `copy()` and `groupby`'s sorted output are not modelled; the per-year filter yields the same groups.
- Simulation.Simulate: the run over years 1..10 uses the corrected rent pass `Smoothing.SmoothYear`, so `FullForecast` is not the table the code as written produces. In the default scenario, the code as written charges School F 600000 and notes it "Smoothed", where the model charges it 400000 and notes it "Lease". School F's and School G's net incomes and margins differ accordingly. The as-written rents and notes are modelled one year at a time only (`Smoothing.SmoothYearAsWritten`, `Smoothing.AsWrittenSpec`), and the as-written net incomes and margins of a whole run are not modelled.
- Smoothing.SmoothYear, Smoothing.SmoothYearAsWritten and Smoothing.RentPerStudent require `Smoothing.RateDefined`: under smoothing, the pool's enrollment total is non-zero. Line 115 divides without a guard, and a zero total would give an infinity or NaN. That case is not modelled. `Simulation.AllDataRateDefined` proves that the run never reaches it.
- The coverage proxy is modelled only over the table of the intended rent pass. Over the as-written table, the "Smoothed" rows would also include the lease schools, and that is not modelled.
- `forecast(years=10)` is modelled with `years` as a parameter. The run always uses 10 (`Simulation.Years`).

## Findings

| source | as written | input that shows it | evidently intended | confidence | as-written member | corrected member |
|---|---|---|---|---|---|---|
| streamlit_app.py:118-120 | Each school's frame keeps its own labels 0..9, and line 97 concatenates them without renumbering, so every row of a year carries the label y − 1. `.at[index, …]` then writes every row carrying the member's label. Each year ends with the last member's charge, noted "Smoothed", on every row, lease schools included. | Default scenario (smoothing on, no growth school), any year: School F, a lease school, ends charged 600000 and noted "Smoothed" | Each member is charged its own enrollment × rate; non-members are untouched | high; not executed | Smoothing.SmoothYearAsWritten, Findings.AsWrittenChargesLeaseSchool | Smoothing.SmoothYear, Smoothing.RentNoteRule |
| streamlit_app.py:127-129 | `index.isin(og_members.index)` compares labels. Every row of a year shares one label, so whenever the pool is non-empty every row passes. No row is noted "Lease", and lease schools are never reset to their own obligation. | Smoothing off, no growth school, any year: School F is noted "Fixed" instead of "Lease" | Rows outside the pool pay their own obligation, noted "Lease" | high; not executed | Smoothing.SmoothYearAsWritten, Findings.AsWrittenMislabelsLease | Smoothing.SmoothYear, Smoothing.RentNoteRule |
