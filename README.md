# com-amor-if dashboard — a Dafny model of its page logic

The dashboard runs a 5S scoring programme for school classes ("turmas").
Evaluators launch point transactions ("pontuações") against scoring
rules ("regras"), each rule belonging to one of five sensos. Managers
validate the transactions, apply them or annul them. Reports, charts and
a public ranking sum the applied points per class, per senso, per
bimester and per month.

This project models the logic inside the dashboard's pages and
components, with the network, rendering and dates cut away:

- **Aggregation.** The reducers of the reports page and of the three
  chart components group and sum transactions. They are modelled as
  loops (`method`s) proved against a specification: an accumulated entry
  is the signed sum over the transactions that carry its key.
  Reconciliation lemmas show that totals agree across groupings.
- **Page state.** The validation, system-points, groups, points, form
  and ranking components are modelled as `class`es whose fields are
  their React state. Each handler is a method stating the whole new
  state. The result of a request is passed in as a value
  (`PostOutcome`): the server answered, or the call threw.
- **Pure helpers.** The table component's cell keys, column span and
  pager buttons, the role table, the search filter and the paging
  arithmetic are modelled as functions and lemmas.

JavaScript semantics are written out where the code relies on them:

- `|| 0` and `|| 500` on falsy values;
- `undefined + n` giving NaN;
- `parseInt`;
- an integer-like object key listed before the other keys;
- `Array.prototype.sort`.

The sort is modelled as a stable insertion sort that reads a NaN
comparator answer as +0. ECMAScript (since the 2019 edition) requires
`sort` to be stable, so for a consistent comparator every conforming
sort gives the model's order. A comparator that answers NaN is not
consistent in ECMAScript's sense, and the order it produces is
implementation-defined; for the bimester chart, whose comparator always
answers NaN, the model assumes the NaN-as-+0 reading of a stable sort,
which keeps the input order.

Modules: `Base`, `Text`, `Folds`, `Sorting`, `Paging`, `Numerals`,
`Domain` (shared), `Table`, `Role`, `HasRoleUtil`, `ReportsPage`,
`ReportCharts`, `Charts`, `ReportsCharts`, `ValidatePage`,
`SystemPointsPage`, `GroupsPage`, `PontuacaoForm`, `PointsPage`,
`Ranking`.

## Model

| member | source | states |
|---|---|---|
| `Base.Filter` | app/groups/page.js:55 | `Array.prototype.filter`: exactly the elements that pass are in the result, and it is no longer than the input |
| `Base.FilterAppend` | app/groups/page.js:55 | filtering a concatenation is the concatenation of the filtered parts: the kept elements keep their input order |
| `Base.FilterOne` | app/groups/page.js:55 | a one-element list keeps its element iff it passes |
| `Base.FilterCounts` | app/groups/page.js:55 | a passing element is kept as often as it occurs in the input, any other never |
| `Base.FilterKeepsAll` | app/groups/page.js:55 | when every element passes, the list comes back unchanged |
| `Folds.Select` | app/points/page.js:42-43 | keeps exactly the records that carry the key, each from the input |
| `Folds.GroupSums` | app/components/Charts.js:123-127 | the loop's dictionary holds, under each key some record carries, the weighted sum of those records, and no other key |
| `Folds.NestedGroupSums` | app/components/Charts.js:29-37 | two-level reduce: each row and cell holds the sum of its records; a row has a cell only for keys its records carry |
| `Folds.GroupsReconcile` | app/reports/page.js:74-95 | group sums along any duplicate-free list of keys covering the groups add up to the total weight |
| `Folds.AccumulatedValuesAddUp` | app/reports/page.js:93-94 | the values of a reduce, read along a covering key list, add up to the total |
| `Folds.FirstSeen` | app/points/page.js:50-51 | `Object.keys` insertion order: each key once, exactly the keys carried |
| `Folds.FirstSeenStartsWithFirst` | app/points/page.js:50-51 | the first key is the key of the first record |
| `Folds.DistinctPermutation` | app/components/ReportCharts.js:39-62 | a rearrangement of a duplicate-free list has no duplicates |
| `Text.LowerForgetsCase` | app/reports/page.js:142 | lower-casing is idempotent and forgets a prior upper-casing |
| `Text.UpperForgetsCase` | utils/role.js:30 | upper-casing is idempotent and forgets a prior lower-casing |
| `Text.IncludesAt` | app/reports/page.js:142 | `includes` holds iff the needle occurs at some position |
| `Text.MatchesTrivially` | app/reports/page.js:141-143 | the empty term and the text itself (in any case) always match |
| `Text.MatchesIgnoresCase` | app/reports/page.js:141-143 | the search ignores the case of term and text |
| `Text.MatchesSearchAt` | app/reports/page.js:141-143 | the search matches iff the lower-cased term occurs at some offset of the lower-cased text |
| `Text.SearchFilter` | app/reports/page.js:141-143 | keeps exactly the items whose field contains the term, case-insensitively |
| `Text.SearchFilterKeepsOrder` | app/reports/page.js:141-143 | the search splits over a concatenation and keeps one item iff it matches: the matches stay in input order |
| `Text.SearchFilterCounts` | app/reports/page.js:141-143 | a matching item appears as often as in the input, any other never |
| `Text.EmptySearchKeepsAll` | app/validate/page.js:205-207 | an empty search keeps the whole list, in order |
| `Sorting.SortBy` | app/components/ReportCharts.js:101-105 | the sort is a permutation of its input |
| `Sorting.SortByKeySorts` | app/components/Charts.js:82-86 | with a consistent comparator the result is ordered by the key |
| `Sorting.NaNComparatorKeepsOrder` | app/components/ReportCharts.js:101-105 | a comparator that always answers NaN leaves the order unchanged |
| `Sorting.SortByProjects` | app/components/Charts.js:82-86 | sorting keeps the multiset of any projection (the dates of the entries) |
| `Sorting.SortDescending` | app/components/Ranking.js:27 | in place: non-increasing by the key, and the same elements |
| `Sorting.SiftLeft` | app/components/Ranking.js:27 | one insertion step of that sort: a sorted prefix grows by one element and the array keeps its elements |
| `Paging.CeilDiv` | app/groups/page.js:110 | `Math.ceil(n/d)`: enough pages for n items and no spare one; 0 for no items |
| `Paging.ClampedPageCount` | app/validate/page.js:291-295 | the page count is at least 1, covers all items and has no spare page beyond the first |
| `Paging.PageSlice` | app/validate/page.js:266-267 | `slice((page-1)*n, page*n)`: at most n items, the ones at those positions |
| `Paging.ItemOnItsPage` | app/groups/page.js:111-114 | item k appears on page k div n + 1, at position k mod n |
| `Paging.PastLastPageIsEmpty` | app/groups/page.js:111-114 | a page past the last one is empty |
| `Paging.PagesRebuildList` | app/groups/page.js:110-114 | the pages, concatenated in order, rebuild the list |
| `Numerals.DecimalString` | app/components/ReportCharts.js:93 | `${n}`: digits only, no leading zero |
| `Numerals.ParseInt` | app/components/ReportCharts.js:102-103 | `parseInt(s, 10)`: NaN exactly when no digit follows the leading white space and sign |
| `Numerals.ParseIntReadsDecimal` | app/components/ReportCharts.js:102-103 | `parseInt(s, 10)` reads back the decimal text of a number, which has no leading white space and no sign |
| `Numerals.ParseIntAnyRadix` | app/components/PontuacaoForm.js:43 | `parseInt(s)` without a radix: the base-10 reading unless a "0x"/"0X" prefix follows the sign, then base 16, NaN with no hexadecimal digit |
| `Numerals.HexPrefixReadings` | app/components/PontuacaoForm.js:43 | "0x1A" reads 26 without a radix but 0 in base 10; "0x" reads NaN without a radix but 0 in base 10 |
| `Numerals.AnyRadixReadsDecimal` | app/components/PontuacaoForm.js:43 | without a radix, the decimal text of a natural number still reads back as that number |
| `Numerals.NumberAfterSpace` | app/components/ReportCharts.js:102 | `parseInt(s.split(" ")[1])` is NaN for a label without a space |
| `Numerals.NumberAfterSpaceReadsLabel` | app/components/ReportCharts.js:102 | on "word n" it reads n |
| `Numerals.DecimalHasNoSpace` | app/components/ReportCharts.js:93 | a bimester label has no space, so its second word is undefined |
| `Domain.Chronologically` | app/reports/page.js:125-128 | the Date difference is a number, negative iff the first month comes earlier, zero iff the same month |
| `Domain.ChronologicallyOrdersByMonth` | app/components/Charts.js:82-86 | the month comparator is a consistent chronological order |
| `Domain.BimestreKeys` | app/components/ReportCharts.js:39-62 | `Object.values` of a bimester-keyed object: each bimester once, ascending |
| `Domain.SensosAreFiveDistinct` | app/components/ReportCharts.js:132-138 | five distinct sensos |
| `Domain.SignRulesCompared` | app/reports/page.js:83 | the SUM-signed and SUB-signed rules agree on SUM and SUB and split on any other operation |
| `Domain.SignedBySum` | app/reports/page.js:83 | the points with their sign: positive for SUM, negative for SUB, never another magnitude |
| `Domain.SignedBySub` | app/components/ReportCharts.js:45 | the points with their sign: negative for SUB, positive for SUM, never another magnitude |
| `Domain.OperationLabel` | app/validate/page.js:276 | "Adição" iff the operation is SUM, "Subtração" otherwise |
| `Domain.StatusLabel` | app/validate/page.js:278-282 | Aplicado iff applied; Anulado iff annulled and not applied; Pendente iff neither |
| `Domain.BimestreCell` | app/validate/page.js:270-271 | "Extra" iff bimester 4, otherwise the 1-based number |
| `Domain.BimestreCellsDiffer` | app/systemPoints/page.js:181 | different bimesters get different labels |
| `Table.CellKey` | app/components/Table.js:67 | the key has the header's length and no space |
| `Table.CellKeyIsIdempotent` | app/components/Table.js:67 | deriving the key twice gives the same key |
| `Table.NomeDaTurmaKey` | app/components/Table.js:67 | "Nome da Turma" reads `nome_da_turma` |
| `Table.Cell` | app/components/Table.js:67 | a cell has a value iff the row has the header's key |
| `Table.ColSpan` | app/components/Table.js:51-53 | the empty row spans the header row: one more column iff there are actions |
| `Table.HeaderRow` | app/components/Table.js:30-46 | the headers in order, then "Ações" iff there are actions |
| `Table.Body` | app/components/Table.js:48-85 | one "Nenhum dado" row for no data, else one row per item with one cell per header, then an actions cell iff there are actions, with one button per action acting on that row; every data row is as wide as the header row |
| `Table.PreviousButton` | app/components/Table.js:92-98 | disabled iff on page 1, else asks for the page before |
| `Table.NextButton` | app/components/Table.js:102-108 | disabled iff on the last page, else asks for the page after |
| `Table.PagerStaysInRange` | app/components/Table.js:92-108 | within 1..totalPages the enabled buttons ask only for existing pages |
| `Role.Category` | utils/role.js:2-15 | Admin iff one of the two admin roles, Aval iff one of the nine evaluator roles, General iff ROLE_ALUNO, none otherwise |
| `Role.RolesTable` | utils/role.js:2-15 | two admin roles and nine evaluator roles, none shared |
| `Role.CanAccessPage` | utils/role.js:18-21 | granted iff the role has a category and it is allowed |
| `Role.UnknownRoleNeverGranted` | utils/role.js:18-21 | a role outside the table is never granted |
| `Role.AnyOfCategory` | utils/role.js:25 | `some` holds iff some role maps to the category |
| `Role.IsFromCategory` | utils/role.js:24-26 | holds iff some role of the user maps to the category |
| `Role.IsFromCategoryMonotone` | utils/role.js:24-26 | false with no roles; more roles never remove a category |
| `Role.StaffAreAdminsAndEvaluators` | app/points/page.js:76-82 | the staff gate admits exactly users with an admin or evaluator role; never students only or no user |
| `Role.Prefixed` | utils/role.js:30 | `ROLE_` followed by the upper-cased name |
| `Role.HasRole` | utils/role.js:28-34 | holds iff the prefixed role is among the user's roles |
| `Role.HasRoleIgnoresCase` | utils/role.js:30 | the case of the role name does not matter |
| `Role.HasRoleAval` | utils/role.js:28-34 | `hasRole(user, "aval")` is holding ROLE_AVAL, and makes the user an evaluator |
| `HasRoleUtil.HasRole` | app/utils/hasRole.js:1-7 | holds iff some role equals the prefixed name; never for a user without roles |
| `HasRoleUtil.AgreesWithRoleModule` | app/utils/hasRole.js:1-7 | both copies of `hasRole` answer alike |
| `HasRoleUtil.IgnoresCase` | app/utils/hasRole.js:3 | the case of the role name does not matter |
| `ReportsPage.AppliedOnly` | app/reports/page.js:44 | keeps exactly the applied transactions |
| `ReportsPage.OnlyAppliedCount` | app/reports/page.js:44 | a new transaction extends the list iff it is applied |
| `ReportsPage.ScoreStepKeepsScores` | app/reports/page.js:79-90 | one loop step keeps every class entry equal to its signed total and monthly sums |
| `ReportsPage.RecordTransaction` | app/reports/page.js:75-94 | the loop body updates the class entry and the senso total of the transaction |
| `ReportsPage.AccumulateScores` | app/reports/page.js:74-95 | per class: named after its first transaction, total and monthly buckets are the signed sums; per senso: the signed sum |
| `ReportsPage.FillRegistry` | app/reports/page.js:98-102 | every registered class gets an entry; existing entries unchanged; new ones zero, named after the first registration |
| `ReportsPage.ComputeMetrics` | app/reports/page.js:44-102 | the metrics of the applied transactions, with every registered class present |
| `ReportsPage.MonthBucketsAddUpToTotal` | app/reports/page.js:83-90 | a class's monthly buckets add up to its total |
| `ReportsPage.SensoTotalsMatchClassTotals` | app/reports/page.js:74-95 | the senso totals and the class totals add up to the same grand total |
| `ReportsPage.LineSeries` | app/reports/page.js:123-136 | for `Object.keys` of the buckets: every month of the class, each once, sorted chronologically, each with its bucket |
| `ReportsPage.SortedMonths` | app/reports/page.js:124-128 | the chronological sort of the month keys keeps each month once and orders them by month |
| `ReportsPage.FirstByDescending` | app/reports/page.js:138-139 | after an in-place sort by descending key, the first entry holds the highest key; none for an empty array; the same entries |
| `ReportsPage.MostAndLeastScored` | app/reports/page.js:138-139 | the first after each sort holds the highest and the lowest total; none for no sensos, where the page as written reads `.senso` of `undefined` (app/reports/page.js:156-161) and throws while rendering |
| `ReportsPage.SensoEntries` | app/reports/page.js:105-108 | `Object.entries` of the senso totals: one record per senso, each with its total, no senso twice |
| `ReportsPage.SensoSummary` | app/reports/page.js:105-108 | on the computed senso totals: the most scored senso has the largest total of all, the least scored the smallest; neither when there is no senso, where the page as written throws while rendering the summary |
| `ReportsPage.SearchRows` | app/reports/page.js:141-143 | the transactions whose class name contains the term, each as often as given (their order is that of `Text.SearchFilterKeepsOrder`) |
| `ReportsPage.VisibleRows` | app/reports/page.js:201-202 | without a pager handler the table shows the first five rows |
| `ReportsPage.ReportRow` | app/reports/page.js:203-213 | as written, the row holds the date and the author under `data` and `criadoPor`, and nothing under `registrado_em` or `criado_por` |
| `ReportsPage.DateAndAuthorColumnsBlank` | app/reports/page.js:190-213 | as written, "Registrado Em" and "Criado Por" find no field in the row |
| `ReportsPage.ReportRowCorrected` | app/reports/page.js:203-213 | the corrected row has a field for every column the headers name |
| `ReportsPage.EveryColumnFilled` | app/reports/page.js:190-213 | with matching keys every column shows a value, the date and the author included |
| `ReportCharts.BarSensosAreTheSensos` | app/components/ReportCharts.js:31-37 | the bar chart's five sensos are the five sensos, each once |
| `ReportCharts.ZeroRow` | app/components/ReportCharts.js:52-54 | a new bimester row starts with every senso at 0 |
| `ReportCharts.ZeroFilledIsEmptyRow` | app/components/ReportCharts.js:48-55 | a zero-filled row is the row of no transaction |
| `ReportCharts.BarRowsStep` | app/components/ReportCharts.js:40-60 | one reduce step keeps every bimester row correct |
| `ReportCharts.RecordBar` | app/components/ReportCharts.js:41-60 | the reduce body for one transaction |
| `ReportCharts.BarRows` | app/components/ReportCharts.js:40-61 | each bimester's row is its zero-filled, SUB-signed senso sums (NaN for a senso outside the five) |
| `ReportCharts.BarChartData` | app/components/ReportCharts.js:39-62 | one entry per bimester, ascending, labelled `${bimestre}`, holding that row |
| `ReportCharts.KnownSensosGiveNumbers` | app/components/ReportCharts.js:52-58 | with known sensos only, every bar is the signed senso sum |
| `ReportCharts.UnknownSensoIsNaN` | app/components/ReportCharts.js:53-58 | a transaction of another senso turns its bar NaN |
| `ReportCharts.BimesterSortKeepsOrder` | app/components/ReportCharts.js:101-105 | labels without a space sort by NaN and keep their order |
| `ReportCharts.LineChartData` | app/components/ReportCharts.js:85-105 | one entry per bimester, ascending, holding the signed sums of its sensos present |
| `ReportCharts.LineEntries` | app/components/ReportCharts.js:85-98 | each entry labelled by its bimester's decimal, without a space |
| `ReportCharts.RadarChartData` | app/components/ReportCharts.js:140-151 | one point per senso in order, undefined for a senso without transactions, else its signed sum |
| `Charts.BarEntries` | app/components/Charts.js:28-38 | one entry per bimester key holding its row |
| `Charts.BarChartData` | app/components/Charts.js:28-38 | per bimester, ascending: the raw point sums of the sensos present |
| `Charts.StackedBarIsBimesterTotal` | app/components/Charts.js:29-37 | a stacked bar is as tall as its bimester's raw points |
| `Charts.LineEntries` | app/components/Charts.js:65-79 | one entry per month in insertion order, holding its row |
| `Charts.LineChartData` | app/components/Charts.js:65-86 | one entry per month, each once, chronologically sorted, holding its raw senso sums |
| `Charts.LineDataFacts` | app/components/Charts.js:82-86 | sorting the month entries keeps each month once and orders them |
| `Charts.RadarChartData` | app/components/Charts.js:123-133 | one point per senso, its raw sum, 0 when it has none |
| `Charts.RadarCoversListedSensos` | app/components/Charts.js:123-133 | the radar adds up to the points of the five sensos, and to all points when every transaction has one of them |
| `Charts.RadarTotalIsSumKeys` | app/components/Charts.js:130-133 | the radar total is the group sums along the listed sensos |
| `ReportsCharts.TurmaBars` | app/components/ReportsCharts.js:21-24 | one bar per class, in order, with its name and total |
| `ReportsCharts.RadarSenso` | app/components/ReportsCharts.js:104-107 | one radar point per senso entry, in order, with its total |
| `ReportsCharts.UniqueBimesters` | app/components/ReportsCharts.js:53-58 | every bimester key of any class, each once |
| `ReportsCharts.ColumnIsDense` | app/components/ReportsCharts.js:68-74 | every class name has a value in every row: its own or 0 |
| `ReportsCharts.FillEntry` | app/components/ReportsCharts.js:68-73 | a row named by its key, holding each class's value |
| `ReportsCharts.BuildRows` | app/components/ReportsCharts.js:67-74 | one row per key, in the keys' order |
| `ReportsCharts.EvolutionData` | app/components/ReportsCharts.js:52-74 | rows named by the distinct bimester keys of all classes, each once, each holding every class's value |
| `ValidatePage.Endpoint` | app/validate/page.js:14-28 | an endpoint iff the tab is one of the four |
| `ValidatePage.GetActions` | app/validate/page.js:74-93 | pending: delete, apply, annul; applied: annul; annulled: apply; else none; no duplicates |
| `ValidatePage.ActionsMoveOut` | app/validate/page.js:74-93 | every listed tab but "Todos os Pontos" offers an action, and none moves a row to its own tab |
| `ValidatePage.Row` | app/validate/page.js:268-288 | the row has a field for every column, and the hidden `id_turma` and `contador` |
| `ValidatePage.KeyOfRow` | app/validate/page.js:157-160 | a row button sends the `id_turma` and `contador` its row carries |
| `ValidatePage.EveryHeaderHasCell` | app/validate/page.js:255-288 | every column finds its field; status and bimester labels as the row builds them |
| `ValidatePage.ApplyAllPayload` | app/validate/page.js:132-135 | one `{contador, id_turma}` per loaded transaction, in order |
| `ValidatePage.ValidationPage.constructor` | app/validate/page.js:41-47 | initial state: pending tab, page 1, no messages, dialog closed |
| `ValidatePage.ValidationPage.FilteredPoints` | app/validate/page.js:205-207 | the loaded transactions whose class name contains the term, each as often as loaded (their order is that of `Text.SearchFilterKeepsOrder`) |
| `ValidatePage.ValidationPage.TotalPages` | app/validate/page.js:291-295 | at least one page, covering the filtered list |
| `ValidatePage.ValidationPage.Rows` | app/validate/page.js:266-288 | the rows of the filtered points at positions [(page-1)*10, page*10), in filtered order: exactly min(10, n - (page-1)*10) of them, none past the end |
| `ValidatePage.ValidationPage.ShowsApplyAll` | app/validate/page.js:240-250 | "Aplicar todos" shows iff the tab is the one whose rows can be deleted (pending), where every row can be applied |
| `ValidatePage.ValidationPage.TabChange` | app/validate/page.js:95-98 | the tab changes to one of the four labels the tab bar offers, so it has an endpoint, and the page returns to 1 |
| `ValidatePage.ValidationPage.Search` | app/validate/page.js:298-301 | the term changes and the page returns to 1 |
| `ValidatePage.ValidationPage.PreviousPage` | app/validate/page.js:201-203 | the page before, unless on page 1 |
| `ValidatePage.ValidationPage.NextPage` | app/validate/page.js:201-203 | the page after, unless on the last page |
| `ValidatePage.ValidationPage.Fetched` | app/validate/page.js:50-61 | the answer replaces the data; a failure sets only the error banner |
| `ValidatePage.ValidationPage.HandleDelete` | app/validate/page.js:100-103 | chooses the row and opens the dialog |
| `ValidatePage.ValidationPage.Settle` | app/validate/page.js:114-125 | success: banner set, dialog closed; failure: error banner, dialog as it was |
| `ValidatePage.ValidationPage.DeletePoints` | app/validate/page.js:105-126 | no token: error, no request, dialog and chosen row unchanged; else one delete request for the chosen row; success closes the dialog and forgets the row, failure keeps both |
| `ValidatePage.ValidationPage.ApplyAll` | app/validate/page.js:128-151 | no token: error and no request; else one request with every loaded key; success closes the dialog and forgets the chosen row; otherwise both stay |
| `ValidatePage.ValidationPage.ApplyOrAnnul` | app/validate/page.js:153-199 | no token: error and no request; else the row's key to the approve or cancel endpoint; success closes the dialog and forgets the chosen row; otherwise both stay |
| `ValidatePage.FirstPageAfterReset` | app/validate/page.js:266-267 | after a reset to page 1 the rows are the first filtered transactions |
| `SystemPointsPage.Row` | app/systemPoints/page.js:179-202 | the row has a field for every column |
| `SystemPointsPage.Shown` | app/systemPoints/page.js:54-58 | shown iff a user is logged in and holds an administrator or evaluator role |
| `SystemPointsPage.EveryHeaderHasCell` | app/systemPoints/page.js:165-202 | every column finds its field; applied > annulled > pending; bimester 4 is "Extra" |
| `SystemPointsPage.RowsOf` | app/systemPoints/page.js:179-202 | one row per transaction, in order |
| `SystemPointsPage.ResultMessage` | app/systemPoints/page.js:92-98 | the "none eligible" text iff the answer has length 0, the launch text otherwise |
| `SystemPointsPage.SystemPoints.constructor` | app/systemPoints/page.js:20-29 | loading, page 1, form at bimester 0 |
| `SystemPointsPage.SystemPoints.FilteredData` | app/systemPoints/page.js:63-65 | the transactions whose class name contains the term, each as often as fetched (their order is that of `Text.SearchFilterKeepsOrder`) |
| `SystemPointsPage.SystemPoints.TotalPages` | app/systemPoints/page.js:209-213 | at least one page, covering the filtered list |
| `SystemPointsPage.SystemPoints.Rows` | app/systemPoints/page.js:177-202 | the rows of the filtered transactions at positions [(page-1)*10, page*10), in filtered order: exactly min(10, n - (page-1)*10) of them, none past the end |
| `SystemPointsPage.SystemPoints.Fetched` | app/systemPoints/page.js:31-49 | a non-ok answer sets the error and its body is still stored; a failure sets the error; loading ends |
| `SystemPointsPage.SystemPoints.InputChange` | app/systemPoints/page.js:71-74 | only the named field changes |
| `SystemPointsPage.SystemPoints.HandleSubmit` | app/systemPoints/page.js:76-109 | no token: error, no request; else only the bimester is sent; an answer resets the form to bimester 0 |
| `SystemPointsPage.SystemPoints.Search` | app/systemPoints/page.js:204-207 | the term changes and the page returns to 1 |
| `SystemPointsPage.SystemPoints.PreviousPage` | app/systemPoints/page.js:67-69 | the page before, unless on page 1 |
| `SystemPointsPage.SystemPoints.NextPage` | app/systemPoints/page.js:67-69 | the page after, unless on the last page |
| `GroupsPage.OpenYears` | app/groups/page.js:55 | keeps exactly the years whose status is "Aberto" |
| `GroupsPage.OpenYearsKeepOrder` | app/groups/page.js:55 | the open years keep their input order and their multiplicity |
| `GroupsPage.FilterTurmas` | app/groups/page.js:67-71 | keeps a class iff its name or its description contains the term, case-insensitively |
| `GroupsPage.FilterTurmasKeepsOrder` | app/groups/page.js:67-71 | the matching classes keep their input order and their multiplicity |
| `GroupsPage.EmptySearchKeepsAll` | app/groups/page.js:67-71 | the empty search keeps every class |
| `GroupsPage.EditForm` | app/groups/page.js:78-82 | name and description copied; the year's id, or the empty choice for none or id 0 |
| `GroupsPage.ReplaceById` | app/groups/page.js:99 | same length; entries with the saved id replaced, others kept |
| `GroupsPage.ReplaceByIdIsUpsert` | app/groups/page.js:98-102 | with unique ids, editing replaces exactly the saved class |
| `GroupsPage.AppendKeepsIds` | app/groups/page.js:101 | adding appends; ids stay unique for a new id |
| `GroupsPage.GroupManagement.constructor` | app/groups/page.js:15-33 | empty lists, empty form, page 1 |
| `GroupsPage.GroupManagement.Refilter` | app/groups/page.js:66-74 | the filtered list is recomputed and the page returns to 1 |
| `GroupsPage.GroupManagement.SetSearch` | app/groups/page.js:66-74 | a new term refilters and returns to page 1 |
| `GroupsPage.GroupManagement.TurmasFetched` | app/groups/page.js:36-46 | the answer replaces the classes; a failure sets the error |
| `GroupsPage.GroupManagement.YearsFetched` | app/groups/page.js:51-62 | only the open years are kept; a failure sets the error |
| `GroupsPage.GroupManagement.AddClicked` | app/groups/page.js:139-143 | no class being edited, an empty form, the dialog open |
| `GroupsPage.GroupManagement.HandleEdit` | app/groups/page.js:76-84 | the class being edited, its form, the dialog open |
| `GroupsPage.GroupManagement.HandleSave` | app/groups/page.js:86-108 | sends the edited id or null; the answer replaces (edit) or is appended (add); failure keeps the list |
| `GroupsPage.GroupManagement.TotalPagesAsWritten` | app/groups/page.js:110 | `ceil(n/10)`: 0 iff no class matches |
| `GroupsPage.GroupManagement.TotalPages` | app/groups/page.js:110 | the page count clamped to at least 1 |
| `GroupsPage.GroupManagement.CurrentPageData` | app/groups/page.js:111-114 | the filtered classes at positions [(page-1)*10, page*10), in order: exactly min(10, n - (page-1)*10) of them, none past the end |
| `GroupsPage.GroupManagement.NextPage` | app/groups/page.js:159-161 | the corrected pager of the groups-pager finding below: the page after, unless on the last page of the clamped count; whenever some class matches, this is also the step of the pager as written (`ceil(n/10)`) |
| `GroupsPage.GroupManagement.PreviousPage` | app/groups/page.js:159-161 | the page before, unless on page 1 |
| `GroupsPage.EmptyListNextEnabled` | app/groups/page.js:110 | as written, no match gives 0 pages and "Próxima" stays enabled on page 1, leading to an empty page 2 |
| `GroupsPage.ClampedPagerStaysInRange` | app/groups/page.js:110 | with the clamped count the pager never leaves the existing pages |
| `PontuacaoForm.OrDefault` | app/components/PontuacaoForm.js:55-56 | `v \|\| d`: the value unless it is absent or 0 |
| `PontuacaoForm.FindRegra` | app/components/PontuacaoForm.js:42-44 | a rule iff one has the number read by the radix-less `parseInt`: the first such; none for NaN |
| `PontuacaoForm.OptionValueFindsItsRule` | app/components/PontuacaoForm.js:83-87 | an option's value, parsed back, finds a rule with that id |
| `PontuacaoForm.RuleFields` | app/components/PontuacaoForm.js:47-57 | fixed points for a `fixo` rule else ""; bimester 4 iff extra else 0; bounds defaulting to 0 and 500; the maximum is never falsy |
| `PontuacaoForm.Spread` | app/components/PontuacaoForm.js:47-48 | the written fields win, every other field is kept |
| `PontuacaoForm.LayoutOf` | app/components/PontuacaoForm.js:92-212 | banner iff an operation is set; shift, bimester, fixed-points and student fields by the rule type; bimester shown with no rule type |
| `PontuacaoForm.PontosRange` | app/components/PontuacaoForm.js:189-190 | the points input's bounds, 0 and 100 standing in for falsy ones |
| `PontuacaoForm.FormState.constructor` | app/components/PontuacaoForm.js:9-22 | the tab's rules, no operation, no rule type, the empty form |
| `PontuacaoForm.FormState.TurmasFetched` | app/components/PontuacaoForm.js:25-39 | the answer replaces the class list; a failure leaves it |
| `PontuacaoForm.FormState.HandleRegraChange` | app/components/PontuacaoForm.js:41-58 | rule type and operation from the rule found (cleared for none); its fields spread over the form |
| `PontuacaoForm.FormState.HandleInputChange` | app/components/PontuacaoForm.js:60-63 | only the named field changes |
| `PontuacaoForm.FormState.Screen` | app/components/PontuacaoForm.js:92-212 | on screen: the banner iff an operation is set, the bimester locked iff the rule is extra, points fixed iff the rule is fixed |
| `PontuacaoForm.UnknownRuleClears` | app/components/PontuacaoForm.js:45-56 | an unknown id: no rule type, empty operation, points "", bimester 0, other fields kept |
| `PontuacaoForm.ExtraRuleLocksBimester` | app/components/PontuacaoForm.js:54 | an extra rule: bimester 4, selector shown and locked; no frequency and not extra: hidden, bimester 0 |
| `PontuacaoForm.RangeAfterRuleChange` | app/components/PontuacaoForm.js:56 | after a rule choice the upper bound is the rule's (non-zero) or 500; before, 100 |
| `PointsPage.GroupKey` | app/points/page.js:41 | the senso's description, "Sem Senso" when absent or empty; never empty |
| `PointsPage.GroupStep` | app/points/page.js:42-43 | one reduce step keeps the groups and the key order right |
| `PointsPage.GroupRules` | app/points/page.js:40-45 | each group holds its senso's rules in input order; keys in first-seen order, each once |
| `PointsPage.EveryRuleInOneGroup` | app/points/page.js:40-45 | every rule is in its own senso's group and in no other |
| `PointsPage.GroupSizesAddUp` | app/points/page.js:42-43 | the group sizes add up to the number of rules |
| `PointsPage.Payload` | app/points/page.js:93-101 | the class and rule under the server's names, five fields copied, nothing else |
| `PointsPage.PayloadAfterRuleChange` | app/points/page.js:93-101 | after a rule choice the request carries the chosen id, the class chosen before, and bimester 4 iff extra |
| `PointsPage.ScreenFor` | app/points/page.js:74-82 | spinner iff not ready; the page iff ready and staff |
| `PointsPage.SuccessBoxAsWritten` | app/points/page.js:127-133 | as written, the green box is drawn with the success message but shows the error message |
| `PointsPage.SuccessBoxShowsError` | app/points/page.js:127-133 | after a launch the green box is blank, or repeats an earlier error, never the success text |
| `PointsPage.SuccessBox` | app/points/page.js:127-133 | the green box shows its own message |
| `PointsPage.SuccessBoxShowsLaunch` | app/points/page.js:111 | a successful launch reads "Pontuação lançada com sucesso" |
| `PointsPage.PointsPageState.constructor` | app/points/page.js:25-28 | no groups, no tab, no messages |
| `PointsPage.PointsPageState.RulesFetched` | app/points/page.js:34-58 | the rules grouped, the first rule's senso opened; a failure sets the error |
| `PointsPage.PointsPageState.TabChange` | app/points/page.js:141 | opens the tab |
| `PointsPage.PointsPageState.FormRules` | app/points/page.js:146-161 | a form iff a tab is open, given that tab's group of rules, or `undefined` when the open tab has no group; a tab from the tab bar always has one |
| `PointsPage.PointsPageState.HandleSubmit` | app/points/page.js:84-115 | no token: error and no request; else the payload; success and error each set without clearing the other |
| `PointsPage.PointsPageState.SuccessBoxDrawn` | app/points/page.js:127-133 | the corrected green box of the page state: drawn exactly when the box as written is, showing the success message |
| `Ranking.Crowned` | app/components/Ranking.js:65-76 | the crown goes to the first entry, if any |
| `Ranking.CrownHoldsMaximum` | app/components/Ranking.js:65-76 | in a descending list the crowned entry has the highest score |
| `Ranking.RankingState.constructor` | app/components/Ranking.js:11-13 | no classes, not loading, no error |
| `Ranking.RankingState.GetTurmasPontuacao` | app/components/Ranking.js:15-37 | success: the fetched classes sorted by descending score; failure: the fixed error text and the old list; loading over either way |
| `Ranking.RankingState.ListShown` | app/components/Ranking.js:53-63 | the list is drawn only when loading is over; never beside the load error; always when loading is over with no error |
| `Ranking.CrownAfterLoad` | app/components/Ranking.js:27-28 | after a load the crowned class is a fetched one with the highest score |

## Left out

- Network I/O (`fetch`, the API client, tokens) is a parameter. A request's result is passed in as `PostOutcome`. The token's presence is a boolean.
- The refetch after a successful POST on the validation and system-points pages is not modelled. Its effect is `Fetched` with the new answer.
- React effect scheduling is left out: render order, `useEffect` dependencies, `isReady`/`isLoading` transitions. Each effect is modelled as the method that runs it.
- Rendering, CSS classes, colours, `window.innerWidth` tick sizes and the random class colours of the reports page are left out.
- Date parsing and formatting are left out. A transaction carries its month and year (`MonthKey`); `format(...)` cells keep only that.
- Case mapping covers ASCII and Latin-1 letters only, except ß, ÿ and µ, whose upper case lies outside Latin-1 or is two characters. JavaScript's `toLowerCase`/`toUpperCase` are full Unicode.
- `Text.UpperChar`, `Role.Prefixed`, `Role.HasRole`, `HasRoleUtil.HasRole`, `Text.UpperForgetsCase`: upper-casing leaves ß (U+00DF), ÿ (U+00FF) and µ (U+00B5) unchanged, where JavaScript gives "SS", Ÿ (U+0178) and Μ (U+039C). For a role name containing one of them, the prefixed name's length `5 + |role|` and the role check differ from utils/role.js and app/utils/hasRole.js. The only caller passes an ASCII name.
- Object keys: a JavaScript object lists integer-like keys first, in ascending order. This is modelled for bimester keys. For string keys (sensos, months, tab names) insertion order is used, which holds only when no such key looks like an integer.
- The reports page passes `data=` to the charts of app/components/ReportsCharts.js, which read `turmasArray`/`sensoArray`. With those props as written the charts receive `undefined`. The model takes the arrays those components expect.
- `ReportsCharts.EvolutionData`: the sort comparator of app/components/ReportsCharts.js:61-65 destructures each key string into characters. Its order is therefore a parameter, and the contract holds for every order.
- Field-name collisions in the chart rows are not modelled; the model keeps a row's label apart from its per-senso or per-class values. As written, a class named "name" overwrites the evolution chart's `name` field (app/components/ReportsCharts.js:69), a senso whose `descricao` is "bimestre" overwrites the bar chart's `bimestre` field (app/components/Charts.js:33-34), one named "date" the line charts' `date` field (app/components/Charts.js:74-75, app/components/ReportCharts.js:93-94), and one named "name" the bar chart's `name` field (app/components/ReportCharts.js:49-53).
- `Ranking.RankingState.GetTurmasPontuacao`: states the order and the permutation, not that classes with equal scores keep their fetched order.
- `Role.CanAccessPage`: an `undefined` entry in the allowed list (which would grant an unknown role) is not modelled, because the lists are of strings.
- The form's class fetch calls a `setError` the component never declares. The model keeps the class list and shows no message; the resulting unhandled rejection is not modelled.
- `Sorting.NaNComparatorKeepsOrder`, `ReportCharts.BimesterSortKeepsOrder` and `ReportCharts.LineChartData`: the order after a sort whose comparator answers NaN is implementation-defined in ECMAScript; these members state it for the model's assumption (NaN read as +0 by a stable sort, which keeps the input order), not for every engine.
- `Numerals.ParseInt`, `Numerals.ParseIntAnyRadix`: digits are read into an unbounded integer; JavaScript reads them into a double, which loses precision past 2^53.
- `ReportsPage.MostAndLeastScored`, `ReportsPage.SensoSummary`: with no applied transaction the page as written reads `.senso` of `undefined` at app/reports/page.js:156-161 and the render throws; the model returns `None` for that case and does not model the crash.
- Numbers are unbounded integers. The points are integers; floating point is not modelled.

## Findings

| source | as written | input that shows it | evidently intended | confidence | as-written member | corrected member |
|---|---|---|---|---|---|---|
| app/reports/page.js:190-213 | the rows carry `data` and `criadoPor`, but the headers "Registrado Em" and "Criado Por" read `registrado_em` and `criado_por` | any applied transaction: both columns are blank | rows keyed as the headers read them, as the system-points page does | high, not executed | `ReportsPage.DateAndAuthorColumnsBlank` | `ReportsPage.EveryColumnFilled` |
| app/groups/page.js:110 | `totalPages = Math.ceil(n / 10)` with no lower bound | a search matching no class: "Página 1 de 0", "Próxima" enabled, page 2 empty | the page count clamped to 1, as the other pages do | high, not executed | `GroupsPage.EmptyListNextEnabled` | `GroupsPage.ClampedPagerStaysInRange` |
| app/points/page.js:127-133 | the green box is drawn when `successMessage` is set but displays `errorMessage` | a failed launch, then a successful one: the green box repeats the error; a clean success shows an empty green box | the green box displays `successMessage` | high, not executed | `PointsPage.SuccessBoxShowsError` | `PointsPage.SuccessBoxShowsLaunch` |
