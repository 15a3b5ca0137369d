# Finance ETL batch: budget versus spend

A Dafny model of the batch script `project/ingest/run.py`. The script reads two CSV files, one of expenses and one of annual budgets. It then:

- cleans and validates the expenses stage by stage, sending every rejected frame to a quarantine list with a reason;
- deduplicates the clean expenses on their natural key;
- builds the gold tables: spend per area, the left join with the budgets and the execution KPI, and spend per (month, area);
- classifies each area with the four-way status of the detail view;
- writes a Markdown report with the KPI table, the top five months, the analysed period and the list of areas at risk.

Modules, in the order the script runs:

- `Common`: optional cells, dates, exact decimals, traceability columns, and numpy's round-half-to-even.
- `Text`: `Series.replace(dict)` followed by `str.title()`, plus the area and budget-line dictionaries.
- `Records`: the row shapes at each stage.
- `Seqs`, `Sorting`: boolean masks, projections and concatenation; `sort_values` as a stable arg-sort.
- `QuarantineStore`: the module-level list `cuarentena` as a class whose `Send` method is `enviar_a_cuarentena`.
- `Silver`: the cleaning stages as masks.
  - `StagesWith` is parameterised by the stage-3 range mask. `NonPositiveAsWritten` is the script's own check; `NonPositive` is the corrected check of the finding below.
  - `ExpenseStagesOf` is `StagesWith` with the corrected check.
- `Deduplication`: `sort_values('_ingest_ts').drop_duplicates(..., keep='last')`.
- `Groups`, `Gold`: `groupby().sum()`, the left join, the KPI, the monthly trend, and the CASE and ORDER BY of `v_ejecucion_detalle`.
- `Report`: the dynamic content of the report, built by loops as the script builds it.
- `Pipeline`: the stage-by-stage cleaning methods and one whole batch run. They take the range mask as a parameter, so `RunBatch` with `NonPositiveAsWritten` is the script as written.

Amounts are exact. A parsed amount is a decimal `units / 10^scale`, and rounding to two places gives whole cents. The KPI is a whole number of hundredths of a percent, or NaN or ±infinity where the float division gives those.

## Model

| member | source | states |
|---|---|---|
| QuarantineStore.Quarantine.constructor | project/ingest/run.py:78 | the quarantine list starts empty |
| QuarantineStore.Quarantine.Send | project/ingest/run.py:80-91 | a non-empty frame is appended as one batch with its reason and timestamp; an empty frame changes nothing; the rows of all batches grow by exactly the frame's rows; no batch is ever empty |
| QuarantineStore.BatchIf | project/ingest/run.py:80-91 | the rows one call adds are exactly the frame's rows, and every batch it adds is non-empty and carries the call's reason and timestamp |
| QuarantineStore.NonEmptyBatches | project/ingest/run.py:180-186 | a list of non-empty batches holds at least as many rows as batches, so the list is empty exactly when no row was quarantined |
| Common.RoundHalfEven | project/ingest/run.py:149 | the result is within half a unit of the exact quotient, and on a tie it is even |
| Common.Cents | project/ingest/run.py:149 | `round(2)` of an amount, as cents within half a cent of the exact amount |
| Common.CentsSign | project/ingest/run.py:119-149 | a non-positive amount never rounds to positive cents |
| Text.Title | project/ingest/run.py:134 | the model's title-casing, over ASCII and Latin-1 case tables, keeps the length of the string |
| Text.TitleIdempotent | project/ingest/run.py:134 | title-casing twice is title-casing once |
| Text.NormalizeIdempotent | project/ingest/run.py:133-134 | dictionary replacement then title-casing is idempotent for a dictionary whose keys title-casing never produces |
| Text.AreaMapEntry | project/ingest/run.py:125-134 | every key of the area dictionary ("VENTAS", "IT", ...) normalises to its value, and that value is a canonical area |
| Text.AreaAccepted | project/ingest/run.py:133-137 | an area passes the closed-set check iff it is a dictionary key or its title-cased form is canonical |
| Text.CanonicalAreasFixed | project/ingest/run.py:133-136 | canonical area names are fixed points of normalisation |
| Text.PartidaMapEntry | project/ingest/run.py:143-145 | every key of the budget-line dictionary normalises to its value |
| Silver.CoerceAll | project/ingest/run.py:107-108 | coercion drops no row: the coerced frame lists the same event ids in the same order |
| Silver.CoercedOrigin | project/ingest/run.py:101-108 | every coerced row is the coercion of a raw row without null cells |
| Silver.RowFate | project/ingest/run.py:99-149 | each row lands in the frame of the first check it fails, in that stage's shape; a row failing none reaches the valid frame |
| Silver.ValidRows | project/ingest/run.py:99-149 | the valid frame holds exactly the cleaned forms of the rows that pass every check |
| Silver.CleanRowShape | project/ingest/run.py:133-157 | under any range check, every clean row has an area in {Ventas, Marketing, Ti, Rrhh, Operaciones} and an already normalised budget line |
| Silver.CleanRowInvariants | project/ingest/run.py:117-157 | under the corrected range check, every clean row has a positive amount; the area is canonical and the budget line normalised |
| Silver.AsWrittenCleanAmount | project/ingest/run.py:117-157 | under the range check as written, a clean row's amount is only non-negative, since a positive amount below half a cent is stored as 0.00 |
| Silver.ExpenseNoLoss | project/ingest/run.py:99-149 | each stage removes from the working frame exactly the rows it rejects: the raw event ids are the rejected ids plus the valid ids |
| Silver.ExpenseQuarantineRows | project/ingest/run.py:99-139 | the quarantined expense rows are the four stages' rejects, in stage order |
| Silver.ExpenseAccounting | project/ingest/run.py:96-158 | raw count = quarantined count + clean count + duplicates removed, with the event ids accounted for as multisets |
| Silver.QuarantineDisjoint | project/ingest/run.py:99-139 | with distinct event ids, no row is quarantined twice and no quarantined row is also valid |
| Silver.NullRowQuarantined | project/ingest/run.py:101-103 | a row with a null mandatory cell is quarantined as "Campos obligatorios nulos" and its id is in neither the valid nor the clean table |
| Silver.ConversionFailureQuarantined | project/ingest/run.py:107-115 | a row whose date or amount fails to parse is quarantined as "Error en conversion de tipos" |
| Silver.RangeAndAreaQuarantined | project/ingest/run.py:117-139 | under either range mask (the script's unrounded `importe <= 0` or the corrected cents check), a row the mask selects is quarantined as "Importe negativo o cero"; otherwise an unrecognised area is quarantined as "Area no reconocida" with its normalised area |
| Silver.RangeCheckStricter | project/ingest/run.py:119 | the corrected range check rejects everything the check as written rejects |
| Silver.AsWrittenAdmitsZeroAmount | project/ingest/run.py:119-149 | under the check as written, the amount "0.004" reaches the valid frame with an amount of 0.00; the corrected check quarantines it |
| Silver.BudgetAccounting | project/ingest/run.py:169-175 | every budget row is either quarantined or cleaned, never both and never neither |
| Silver.BudgetRowFate | project/ingest/run.py:169-175 | a budget row with a null area or amount is quarantined as "Campos obligatorios nulos en presupuesto"; every other row is kept, cleaned |
| Silver.BudgetAreasNormalized | project/ingest/run.py:174-175 | cleaned budget areas are fixed points of area normalisation |
| Sorting.ArgSort | project/ingest/run.py:157 | every position exactly once, in key order, with ties in input order |
| Sorting.SortedRowsPermutation | project/ingest/run.py:293 | reordering by the arg-sort is a permutation of the rows |
| Deduplication.Dedup | project/ingest/run.py:157 | deduplication keeps a subset of the rows and never grows the table |
| Deduplication.DedupKeysUnique | project/ingest/run.py:157 | after deduplication no two rows share (fecha, area, partida) |
| Deduplication.DedupKeepsKeys | project/ingest/run.py:157 | every natural key of the input keeps a surviving row |
| Deduplication.DedupSurvivors | project/ingest/run.py:157 | a row survives iff it has the largest `_ingest_ts` of its key group and, among equal stamps, the last input position |
| Deduplication.DedupIdempotent | project/ingest/run.py:157 | deduplicating again changes nothing |
| Deduplication.DedupSameStamp | project/ingest/run.py:157 | with one stamp for the whole batch, a row survives iff no later row has its key |
| Groups.GroupBy | project/ingest/run.py:202 | one group per distinct key, carrying the sum of the column over the rows with that key |
| Groups.Coarsen | project/ingest/run.py:213 | regrouping the groups by a coarser key gives the sum over the rows of each coarse key |
| Gold.AreaTotalsFacts | project/ingest/run.py:202-203 | one row per area with spend, each carrying the sum of that area's clean amounts |
| Gold.MonthlyAddsUpToArea | project/ingest/run.py:201-214 | the monthly totals of an area add up to its accumulated spend |
| Gold.KpiOf | project/ingest/run.py:206-207 | the KPI is finite iff there is a non-zero budget, within half a hundredth of a percent of the exact ratio; +inf or -inf for a zero budget with positive or negative spend |
| Gold.KpiAtLeastExact | project/ingest/run.py:206 | for a positive budget, the rounded KPI reaches a threshold when the exact ratio exceeds the threshold minus half a rounding step, and only when it is at least that |
| Gold.JoinArea | project/ingest/run.py:205 | an area gets one joined row per matching budget row, or one row when it has none, each with the area's spend |
| Gold.KpiRowFacts | project/ingest/run.py:202-206 | every KPI row is an area with spend, carrying the area's accumulated spend, the KPI of that spend, and either one of the area's budgets or no budget because the area has none |
| Gold.KpiCoversAreas | project/ingest/run.py:205 | every area with spend has a row in the KPI table (left join) |
| Gold.NoBudgetRow | project/ingest/run.py:205-206 | an area with spend and no budget row gets exactly one row, with no budget and a NaN KPI |
| Gold.OneRowPerArea | project/ingest/run.py:205 | with at most one budget row per area, the KPI table has exactly one row per area with spend |
| Gold.StatusOf | project/ingest/run.py:231-236 | SOBRE PRESUPUESTO iff KPI > 100; EN RIESGO iff 90 <= KPI <= 100; NORMAL iff 70 <= KPI < 90; BAJO CONSUMO otherwise, including NaN |
| Gold.StatusLabelsDistinct | project/ingest/run.py:231-236 | the four `estado` labels are pairwise distinct, so the label determines the status |
| Gold.StatusMonotone | project/ingest/run.py:231-236 | a larger KPI never gets a milder status; a NaN KPI is BAJO CONSUMO |
| Gold.StatusBands | project/ingest/run.py:231-236 | for a positive budget, the status agrees with the exact spend/budget ratio up to the KPI's rounding |
| Gold.SortByKpiFacts | project/ingest/run.py:293 | sorting by KPI is a permutation into descending KPI order, with NaN last |
| Gold.Remaining | project/ingest/run.py:237 | the remaining budget plus the spend is the budget; NULL without a budget |
| Gold.DetailViewFacts | project/ingest/run.py:227-240 | the view lists every KPI row once, most executed first, each with the `estado` label of its KPI's status |
| Report.MonthTotalsFacts | project/ingest/run.py:308 | the month totals regrouped from the monthly trend are one row per month, carrying the month's spend |
| Report.TopMonthsFacts | project/ingest/run.py:309 | at most five months (min(5, n)), in descending order of spend, taken from the totals; no month left out spends more than one taken |
| Report.RiskSectionFacts | project/ingest/run.py:366-375 | the risk list names exactly the rows with KPI >= 90, with the over-budget wording iff KPI > 100; the "no area at risk" line appears iff there is none |
| Report.RiskRowsOrdered | project/ingest/run.py:367 | the areas at risk are listed in descending KPI order |
| Report.FirstDate | project/ingest/run.py:327 | the earliest date of the clean table: a date of the table that is no later than any |
| Report.LastDate | project/ingest/run.py:328 | the latest date of the clean table: a date of the table that is no earlier than any |
| Report.AreaTable | project/ingest/run.py:295-297 | the loop emits one Table 1 line per sorted KPI row, in order, with the remaining budget |
| Report.MonthTable | project/ingest/run.py:313-314 | the loop emits one Table 2 line per top month, in order |
| Report.RiskLinesLoop | project/ingest/run.py:369-373 | the loop emits one risk line per row at risk, in order |
| Report.RiskList | project/ingest/run.py:366-375 | the risk section is built as the risk specification says |
| Report.Render | project/ingest/run.py:292-375 | the report equals its specification; there is none when the clean table is empty |
| Pipeline.CleanExpenses | project/ingest/run.py:96-158 | for a given range mask, the stage-by-stage cleaning yields the clean table and the duplicate count, and appends exactly the four stages' batches to the quarantine list |
| Pipeline.CleanBudgetTable | project/ingest/run.py:166-175 | the budget cleaning yields the cleaned budgets and appends exactly the null-row batch |
| Pipeline.RunAccounting | project/ingest/run.py:99-175 | the event ids of both raw files are, as a multiset, those of the quarantine list plus those of the valid expense frame plus those of the cleaned budgets; the counts add up |
| Pipeline.RunBatch | project/ingest/run.py:78-375 | a whole batch for a given range mask: a fresh quarantine list holding the expense batches then the budget batch; clean, gold and report tables as specified; every raw event id ends in the quarantine list, the valid expense frame or the cleaned budgets |

## Left out

- CSV reading, the Parquet and SQLite writes, the view's creation in SQLite, `os.makedirs` and all logging are I/O. The view's ordering and status are modelled as functions.
- The batch id, the ingest timestamp, the report's generation time and the per-row uuid event ids are parameters or row fields. Each quarantine call's `datetime.now()` is `clock(k)` for the k-th call.
- The string parsing of `pd.to_datetime` and `pd.to_numeric` is abstract: a `Parsers` value whose functions return None where the parse fails. An amount parsed as infinity is not modelled.
- The quarantine conversion of datetime columns to strings only changes storage types. Quarantined rows keep the shape they had at the rejecting stage.
- Floating point is replaced by exact decimals and integer cents. A KPI equal to a threshold after float division but not exactly, or the reverse, is not modelled.
- `kpi_ejecucion_decimal` is the same rounded integer as `kpi_ejecucion`, read in units of 0.0001. It is not a separate column.
- Groups.GroupBy: groups come out in first-appearance order of their keys, where pandas sorts the keys. Sums and membership do not depend on this. Every later use of the order either re-sorts or only sums.
- Gold.SortByKpi and Report.TopMonths break ties by table order, as a stable sort does. Pandas' default sort is not stable, so rows with equal KPI or equal monthly spend may appear in a different order there.
- Text.Title: case mapping covers ASCII and Latin-1 only. Other cased characters (such as the Kelvin sign, 'µ' or 'ÿ' to 'Ÿ') and multi-character title case ('ß' to "Ss") are left unchanged, and 'ª' and 'º' are not treated as cased. Cased letters outside Latin-1, and 'µ', also count as uncased when finding word starts, so the letter after them is upper-cased where `str.title()` lower-cases it. An area written with such a character may be accepted by the script but quarantined by the model.
- The report's number formatting, its static prose and the fixed period heading are not modelled. The model keeps the dynamic values of each line.
- When the clean expense table is empty, the period bounds are NaT and formatting them raises, so the script stops. The model returns no report in that case.
- A budget amount that fails to parse survives cleaning as NaN, which is what the code does: only the null check rejects budget rows. The KPI of such an area is NaN.
- `project/ingest/get_data.py` (random sample data) and `project/tools/copy_report_to_site.py` (a file copy) are not part of this model.

## Findings

| source | as written | input that shows it | evidently intended | confidence | as-written member | corrected member |
|---|---|---|---|---|---|---|
| project/ingest/run.py:119-149 | the `importe <= 0` range check runs on the unrounded amount, and rounding to 2 decimals comes later | an expense with amount "0.004" passes the check and is stored as 0.00 | every stored amount is positive, so the check should apply to the amount as stored (rounded to cents) | not executed | Silver.AsWrittenAdmitsZeroAmount | Silver.CleanRowInvariants |
