# Lumentech sales dashboard: the logic behind the screens

This project models the logic of the Lumentech sales dashboard's browser
client. Everything else in that client is presentation. The model covers:

- **Metrics aggregation.** `calculateMetrics` turns the order rows of the sheet into:
  - the closed volume (`Ganho` orders with a closing date) and the quoted volume (`Em andamento` or `Ganho` orders);
  - today/month sub-totals for both volumes;
  - rankings by state, origin and professional.

  The state names are normalized through a fixed table first.
- **Page filters.** The category tabs and the map's state selection, which feed the KPI cards and the map.
- **Optimistic handlers.** The create and status-update handlers rewrite the local snapshot and then push the change to the server.
- **Realtime store.** The channel hook's store is a small state machine over join replies, broadcasts, socket events and manual updates. The module also models how `push` settles.
- **Money mask and parse.** The mask turns typed text into a pt-BR amount such as `1.234,56`. The create handler parses such an amount back into a number.
- **Order dialogs.** The create and edit dialogs: their forms, the positional row or field map they submit, and their reset rules.
- **Deals table.** Search, badge colours, the inline status editor and product truncation.
- **Small components.** The map's code/name tables and highlight rule, the origin chart's colour rules, the professionals card, and the typed-word delete gate.

Modules follow the source files:

- `Types` holds the records of `lib/types.ts`.
- `Dates`, `Aggregates`, `StateNames`, `Grouping` and `DashboardLogic` model `lib/dashboardLogic.ts`.
- `Currency` and `OrderForm` model the mask shared by the two dialogs.
- `CreateOrderModal`, `EditOrderModal`, `DealsView`, `MapChart`, `ProfessionalList`, `OriginPieChart`, `DeleteConfirmationModal`, `DashboardChannel` and `App` model their own files.
- `Seqs`, `Text` and `Decimal` are the JavaScript built-ins the code relies on:
  - `filter`;
  - `includes`, `trim`, `toUpperCase`/`toLowerCase` and `split`;
  - `parseInt` with its "0x" prefix, and `parseFloat` on decimal text.

Amounts are exact reals. The mask works on whole cents. A date is a (day, month, year) triple or the invalid date. The current date (`now`), date-fns `parseISO` (`iso`), the pt-BR number format (`fmt`) and today's date string (`today`) are parameters.

Where the code and its own comments disagree, the model follows the code:

- The comment on `data_fechamento` in `lib/types.ts` says ISO dates. `parseBrDate` reads them day first, and so does the model.
- Every closed row is also a quoted row, so with non-negative amounts the closed total never exceeds the quoted total (`DashboardLogic.ClosedWithinQuoted`).
- A canonical accented state name upper-cases to a key the table does not hold, e.g. `AMAPÁ`. It is still left as it is, because an unmapped input comes back unchanged (`StateNames.CanonicalIsFixed`).

## Model

| member | source | states |
|---|---|---|
| Text.Upper | frontend/src/lib/dashboardLogic.ts:19-20 | on the ASCII and Latin-1 letters modelled, `toUpperCase` maps one character to one, so the length is kept |
| Text.Lower | frontend/src/views/DealsView.tsx:17-21 | on the ASCII and Latin-1 letters modelled, `toLowerCase` maps one character to one, so the length is kept |
| Text.CaseMapped | frontend/src/lib/dashboardLogic.ts:19-20 | upper-casing leaves no a-z letter, lower-casing no A-Z letter, and each undoes the other on ASCII letters |
| Text.TrimStart | frontend/src/lib/dashboardLogic.ts:109 | the result is a suffix of the input, everything dropped is whitespace, and it does not start with whitespace |
| Text.TrimEnd | frontend/src/lib/dashboardLogic.ts:109 | the result is a prefix of the input, everything dropped is whitespace, and it does not end with whitespace |
| Text.Trim | frontend/src/lib/dashboardLogic.ts:109 | the result is no longer than the input, has whitespace at neither end, and is "" for whitespace-only text |
| Text.TrimmedAlready | frontend/src/lib/dashboardLogic.ts:109 | text that neither starts nor ends with whitespace is its own trim |
| Text.Contains | frontend/src/views/DealsView.tsx:17-21 | `includes` can only hold when the searched text is at least as long as the term |
| Text.ContainsTransitive | frontend/src/views/DealsView.tsx:17-21 | an occurrence of an occurrence is an occurrence |
| Text.LowerKeepsContains | frontend/src/views/DealsView.tsx:17-21 | lower-casing both sides keeps a substring a substring |
| Text.Split | frontend/src/lib/dashboardLogic.ts:10-11 | `split('/')` gives one more piece than there are separators, no piece holds a separator, and joining the pieces gives the input back |
| Text.SplitJoin | frontend/src/lib/dashboardLogic.ts:10-11 | splitting undoes joining pieces free of the separator |
| Decimal.FromNat | frontend/src/components/CreateOrderModal.tsx:35 | `String(n)` is a digit string that reads back as `n`, without a leading zero unless `n` is 0 |
| Decimal.ParseIntOfDigits | frontend/src/lib/dashboardLogic.ts:13 | `parseInt` of a non-empty digit string is the number it denotes |
| Decimal.ParseInt | frontend/src/lib/dashboardLogic.ts:13 | a number is read only when the first non-blank character is a digit or a sign, and only a minus sign makes it negative |
| Decimal.ParseIntOfHex | frontend/src/lib/dashboardLogic.ts:13 | with no radix, "0x" or "0X" followed by hexadecimal digits reads as their base-16 value |
| Decimal.ParseIntHexExample | frontend/src/lib/dashboardLogic.ts:13 | `parseInt("0x1F")` is 31 |
| Decimal.ParseIntBareHexPrefix | frontend/src/lib/dashboardLogic.ts:13 | "0x" with no hexadecimal digit after it gives NaN, not 0 |
| Decimal.ParseFloat | frontend/src/App.tsx:67 | a number is read only when the first non-blank character is a digit, a sign or '.'; text without a digit gives NaN, except for the "Infinity" form listed under Left out |
| Decimal.ParseFloatOfDecimal | frontend/src/App.tsx:67 | `parseFloat` of "I.F" with digit strings I and F is the value I.F |
| Currency.ToFixed2Reads | frontend/src/components/CreateOrderModal.tsx:35 | `toFixed(2)` of n/100: digits, '.', two digits, and the two parts read back as n cents |
| Currency.KeepDigits | frontend/src/components/CreateOrderModal.tsx:34 | a character is kept exactly when it is a digit of the input, the result never lengthens the text, and (through `Seqs.FilterCons` and `Seqs.FilterAppend`) the digits keep their order |
| Currency.ReplaceFirstAt | frontend/src/components/CreateOrderModal.tsx:36 | a one-character `replace` changes the first occurrence only, whatever follows it |
| Currency.ReplaceFirstOnlyPattern | frontend/src/components/CreateOrderModal.tsx:36 | a one-character `replace` changes a character only where the pattern stood, and only into the replacement |
| Currency.RegexGroupDigits | frontend/src/components/CreateOrderModal.tsx:37 | the global lookahead replace puts a '.' exactly where thousands grouping of the integer digits does |
| Currency.RegexGroupFraction | frontend/src/components/CreateOrderModal.tsx:37 | the replace leaves ",dd" untouched |
| Currency.GroupLength | frontend/src/components/CreateOrderModal.tsx:37 | grouping n digits adds (n-1)/3 separators |
| Currency.FormatEndsInCents | frontend/src/components/CreateOrderModal.tsx:35-37 | a rendered amount ends in ',' and two digits holding the cents |
| Currency.Mask | frontend/src/components/CreateOrderModal.tsx:34-37 | the mask is the grouped rendering of all typed digits read as cents |
| Currency.FormatDigits | frontend/src/components/CreateOrderModal.tsx:35-37 | a rendered amount's digits are the integer digits of n/100 followed by the two cent digits |
| Currency.MaskKeepsCents | frontend/src/components/CreateOrderModal.tsx:34-37 | the masked string holds the cents the input held |
| Currency.MaskIdempotent | frontend/src/components/CreateOrderModal.tsx:34-37 | masking a masked string changes nothing |
| Currency.MaskNoDigits | frontend/src/components/CreateOrderModal.tsx:34-35 | input without digits masks to "0,00" |
| Currency.FormatSmall | frontend/src/components/CreateOrderModal.tsx:35 | below one real the integer part is a single "0" |
| Currency.MaskDropsLeadingZeros | frontend/src/components/CreateOrderModal.tsx:34-35 | "0012" masks to "0,12" |
| Currency.GroupFilter | frontend/src/App.tsx:67 | removing every '.' from a grouped digit string gives the digits back |
| Currency.ParseValor | frontend/src/App.tsx:67 | an amount without a digit parses to NaN; "Infinity" is the exception listed under Left out |
| Currency.ParseValorOfFormat | frontend/src/App.tsx:67 | the create handler's parse of a rendered amount of n cents is n/100 |
| Currency.ParseValorOfMask | frontend/src/App.tsx:67 | the parse of any masked string is its cents over one hundred, so mask and parse round-trip |
| Dates.FullYear | frontend/src/lib/dashboardLogic.ts:13 | `new Date` maps the years 0 to 99 onto 1900 to 1999 and keeps the others |
| Dates.MakeDate | frontend/src/lib/dashboardLogic.ts:13 | the date is valid exactly when all three parts parsed |
| Dates.ParseBrDate | frontend/src/lib/dashboardLogic.ts:8-15 | null or empty gives the epoch; text without exactly three parts goes to the ISO reader |
| Dates.ParseBrDateParts | frontend/src/lib/dashboardLogic.ts:10-13 | "a/b/c" is read as year c, month b, day a |
| Dates.ParseBrDateDigits | frontend/src/lib/dashboardLogic.ts:10-13 | with digits in every part the date is exactly that day, month and (century-mapped) year |
| Dates.SameDayIsSameMonth | frontend/src/lib/dashboardLogic.ts:27-28 | falling on today implies falling in this month |
| Aggregates.IsGanho | frontend/src/lib/dashboardLogic.ts:19 | a won status has five characters and is never also in progress |
| Aggregates.IsEmAndamento | frontend/src/lib/dashboardLogic.ts:20 | an in-progress status has twelve characters |
| Aggregates.Sum | frontend/src/lib/dashboardLogic.ts:97-99 | with non-negative amounts the sum is non-negative |
| Aggregates.TrySum | frontend/src/lib/dashboardLogic.ts:101-103 | when the predicate accepts no row the sum is 0 |
| Aggregates.SumAppend | frontend/src/lib/dashboardLogic.ts:97-99 | the sum over two concatenated row lists is the sum of the sums |
| Aggregates.TrySumIsSumOfFilter | frontend/src/lib/dashboardLogic.ts:101-103 | a predicated sum is the sum of the rows the predicate keeps |
| Aggregates.TrySumCongruent | frontend/src/lib/dashboardLogic.ts:101-103 | two predicates that agree on the rows give the same sum |
| Aggregates.TrySumMonotone | frontend/src/lib/dashboardLogic.ts:101-103 | with non-negative amounts, accepting more rows never lowers the sum |
| Aggregates.TrySumAtMostSum | frontend/src/lib/dashboardLogic.ts:97-103 | with non-negative amounts, a predicated sum lies between 0 and the full sum |
| Aggregates.TrySumOfFilter | frontend/src/lib/dashboardLogic.ts:101-103 | summing with `q` over the rows `p` kept is summing with `p && q` over all rows |
| StateNames.StateLookup | frontend/src/lib/dashboardLogic.ts:112-140 | only keys of two or more characters are known, and none maps to "" |
| StateNames.LookupIsCanonical | frontend/src/lib/dashboardLogic.ts:112-140 | every value of the table is one of the 27 full names |
| StateNames.NormalizeStateName | frontend/src/lib/dashboardLogic.ts:107-142 | empty input gives ""; the result is a full name or the input itself |
| StateNames.CanonicalIsFixed | frontend/src/lib/dashboardLogic.ts:112-142 | every full name the table produces is left as it is |
| StateNames.NormalizeIdempotent | frontend/src/lib/dashboardLogic.ts:107-142 | normalizing twice is normalizing once |
| StateNames.NormalizeLowerCode | frontend/src/lib/dashboardLogic.ts:107-142 | " sp " normalizes to "São Paulo" |
| StateNames.NormalizeUnknown | frontend/src/lib/dashboardLogic.ts:107-142 | every non-empty value whose trimmed, upper-cased key the table lacks comes back untouched, blanks and case included |
| StateNames.NormalizeUnknownExample | frontend/src/lib/dashboardLogic.ts:142 | " xx " comes back as " xx " |
| Grouping.AddTo | frontend/src/lib/dashboardLogic.ts:156-157 | `map.set(k, (map.get(k) \|\| 0) + v)` raises k's total by v |
| Grouping.AddToNames | frontend/src/lib/dashboardLogic.ts:156-157 | a known key keeps the key order and a new key is appended |
| Grouping.AddToGetOther | frontend/src/lib/dashboardLogic.ts:156-157 | every other key keeps its total |
| Grouping.AccumulateNames | frontend/src/lib/dashboardLogic.ts:147-159 | the map holds exactly the non-empty (normalized) keys of the rows |
| Grouping.AccumulateDistinct | frontend/src/lib/dashboardLogic.ts:147-159 | the map holds each key once |
| Grouping.AccumulateGet | frontend/src/lib/dashboardLogic.ts:147-159 | each key's total is the sum over the rows with that key |
| Grouping.AccumulateOrder | frontend/src/lib/dashboardLogic.ts:147-160 | the map's keys are the rows' keys in order of first appearance |
| Grouping.AccumulateTotal | frontend/src/lib/dashboardLogic.ts:147-159 | the totals together add up every row that has a key, and no other |
| Grouping.SortPermutes | frontend/src/lib/dashboardLogic.ts:162 | the sort reorders the entries and loses none |
| Grouping.SortDescending | frontend/src/lib/dashboardLogic.ts:162 | the sorted totals are non-increasing |
| Grouping.SortStable | frontend/src/lib/dashboardLogic.ts:162 | entries with equal totals keep their relative order |
| Grouping.SortKeepsMap | frontend/src/lib/dashboardLogic.ts:160-162 | the sort keeps the key set, distinct keys and every key's total |
| Grouping.SortTotal | frontend/src/lib/dashboardLogic.ts:160-162 | the sort keeps the sum of the totals |
| Grouping.GroupBy | frontend/src/lib/dashboardLogic.ts:160-162 | the ranking is sorted largest total first |
| Grouping.GroupByKeys | frontend/src/lib/dashboardLogic.ts:145-162 | each non-empty key appears exactly once and nothing else appears |
| Grouping.GroupByTotals | frontend/src/lib/dashboardLogic.ts:145-162 | each entry is the sum of `valor` over its rows, and all entries add up to the rows with a key |
| Grouping.GroupByOrder | frontend/src/lib/dashboardLogic.ts:145-162 | largest first, a permutation of the map, ties in first-occurrence order |
| DashboardLogic.QuotedIsActive | frontend/src/lib/dashboardLogic.ts:32-79 | the quoted test and the map's active test accept the same rows |
| DashboardLogic.ClosedVolume | frontend/src/lib/dashboardLogic.ts:19-29 | the closed figures add up exactly the won rows with a closing date, in total, today and this month |
| DashboardLogic.QuotedVolume | frontend/src/lib/dashboardLogic.ts:19-38 | the quoted figures add up exactly the won and in-progress rows, by issue date |
| DashboardLogic.VolumesOrdered | frontend/src/lib/dashboardLogic.ts:25-38 | with non-negative amounts each card reads 0 <= today <= month <= total |
| DashboardLogic.ClosedWithinQuoted | frontend/src/lib/dashboardLogic.ts:23-32 | with non-negative amounts the closed total is at most the quoted total |
| DashboardLogic.CalculateMetrics | frontend/src/lib/dashboardLogic.ts:79-93 | every `Fechado` ranking equals its `Orcado` twin |
| DashboardLogic.OtherStatusIgnored | frontend/src/lib/dashboardLogic.ts:19-32 | a row neither won nor in progress, inserted anywhere, changes no figure and no ranking |
| DashboardLogic.StatusMatching | frontend/src/lib/dashboardLogic.ts:19-20 | status matching ignores case but not surrounding blanks |
| DashboardChannel.Step | frontend/src/hooks/useDashboardChannel.ts:16-37 | only mounting creates the channel; the connection flag follows what the event says about the connection and is kept otherwise |
| DashboardChannel.Run | frontend/src/hooks/useDashboardChannel.ts:16-37 | the channel exists exactly when it existed or a mount happened; events silent about the connection leave its flag |
| DashboardChannel.RunIsLast | frontend/src/hooks/useDashboardChannel.ts:17-57 | after any event history, the connection flag is what the newest connection event said, and the data is what the newest join reply or broadcast delivered, with later manual updates applied; the channel exists exactly when it did at the start or a mount has happened |
| DashboardChannel.ReplacementForgets | frontend/src/hooks/useDashboardChannel.ts:20-33 | once a join reply or broadcast arrived, the earlier snapshot no longer matters |
| DashboardChannel.StoreForgets | frontend/src/hooks/useDashboardChannel.ts:20-33 | two stores fed the same history containing a replacement hold the same data |
| DashboardChannel.SeparateConcerns | frontend/src/hooks/useDashboardChannel.ts:25-57 | socket events and a failed join leave the data; a manual update applies its function and leaves the connection flag |
| DashboardChannel.OptimisticRowOverwritten | frontend/src/hooks/useDashboardChannel.ts:30-57 | a prepended row that the next broadcast lacks is gone |
| DashboardChannel.Push | frontend/src/hooks/useDashboardChannel.ts:45-53 | without a channel "Not connected"; ok resolves with the reply, error rejects with it, timeout rejects "Timeout" |
| OrderForm.Write | frontend/src/components/CreateOrderModal.tsx:38-40 | the written field holds the value and every other field is unchanged |
| OrderForm.HandleChange | frontend/src/components/CreateOrderModal.tsx:29-42 | the amount field gets the mask of the input, any other field the input verbatim, and nothing else changes |
| OrderForm.ChangeValorStable | frontend/src/components/CreateOrderModal.tsx:34-38 | typing into the amount leaves it masked, and re-entering the shown amount changes nothing |
| OrderForm.ChangeKeepsMasked | frontend/src/components/CreateOrderModal.tsx:29-42 | every edit keeps a masked amount masked |
| OrderForm.MaskedValorParses | frontend/src/App.tsx:67 | a masked amount parses to its cents over one hundred |
| CreateOrderModal.DefaultForm | frontend/src/components/CreateOrderModal.tsx:13-25 | category "Projetos", status "Em andamento", today's date, every other field empty |
| CreateOrderModal.Column | frontend/src/components/CreateOrderModal.tsx:54-66 | every field has a column of the row order that holds it |
| CreateOrderModal.RowOrderIsPermutation | frontend/src/components/CreateOrderModal.tsx:54-66 | the eleven columns hold each field exactly once |
| CreateOrderModal.SubmitRow | frontend/src/components/CreateOrderModal.tsx:54-66 | the submitted array has eleven cells, each holding its column's field verbatim |
| CreateOrderModal.Submit | frontend/src/components/CreateOrderModal.tsx:44-80 | the row is sent; success closes and resets to the defaults, failure alerts and keeps the form; loading ends either way |
| EditOrderModal.LoadForm | frontend/src/components/EditOrderModal.tsx:29-50 | every field is copied, a missing closing date becomes "", the amount is formatted |
| EditOrderModal.OnInitialData | frontend/src/components/EditOrderModal.tsx:29-51 | a row reloads the form; no row leaves it |
| EditOrderModal.Submit | frontend/src/components/EditOrderModal.tsx:70-97 | the field map equals the form and is addressed to the loaded row's id; close on success, alert on failure, loading ends |
| EditOrderModal.EditsKeepUntouched | frontend/src/components/EditOrderModal.tsx:55-68 | a sequence of edits keeps every field none of them targets |
| EditOrderModal.SubmitAddressesLoadedRow | frontend/src/components/EditOrderModal.tsx:29-89 | after loading and editing, the submit targets the loaded id and the map carries it |
| DealsView.Search | frontend/src/views/DealsView.tsx:17-21 | the kept rows are exactly the rows whose client, id or category contains the term, case-insensitively |
| DealsView.EmptySearchKeepsAll | frontend/src/views/DealsView.tsx:17-21 | an empty term keeps every row in order |
| DealsView.LongerTermNarrows | frontend/src/views/DealsView.tsx:17-21 | extending the term keeps a subsequence of what the shorter term kept |
| DealsView.FooterCount | frontend/src/views/DealsView.tsx:137 | the footer counts at most all rows, and all of them for an empty term |
| DealsView.StatusColor | frontend/src/views/DealsView.tsx:42-47 | green exactly for "GANHO", red exactly for "PERDIDO", blue otherwise, ignoring case |
| DealsView.BadgeAgreesWithMetrics | frontend/src/views/DealsView.tsx:42-47 | a red badge marks a row no volume counts |
| DealsView.OptionColors | frontend/src/views/DealsView.tsx:42-47 | the three offered statuses get the three colours |
| DealsView.EditClick | frontend/src/views/DealsView.tsx:23-26 | the editor opens on the row's id with the row's status |
| DealsView.CancelEdit | frontend/src/views/DealsView.tsx:28-31 | the editor returns to no id and "" |
| DealsView.SelectStatus | frontend/src/views/DealsView.tsx:105-106 | choosing a status changes only the pending status |
| DealsView.SaveEdit | frontend/src/views/DealsView.tsx:33-37 | the tick calls the update with the id and pending status, then resets the editor |
| DealsView.EditThenSaveUpdates | frontend/src/views/DealsView.tsx:23-37 | edit, choose, save sets that status on the rows with that id and leaves every other row |
| DealsView.EditThenCancel | frontend/src/views/DealsView.tsx:23-31 | edit then cancel returns to the idle editor |
| DealsView.Truncate | frontend/src/views/DealsView.tsx:100 | up to 30 characters verbatim, else the first 30 and "..." |
| DealsView.TruncateBounds | frontend/src/views/DealsView.tsx:100 | the cell never exceeds 33 characters, and truncating again changes nothing |
| MapChart.SiglaToName | frontend/src/components/charts/MapChart.tsx:123-133 | a code outside the table comes back unchanged |
| MapChart.NameToSigla | frontend/src/components/charts/MapChart.tsx:135-145 | a name outside the table comes back unchanged |
| MapChart.CodeRoundTrip | frontend/src/components/charts/MapChart.tsx:123-145 | each of the 27 codes goes to a name of the other table and back to itself |
| MapChart.NameRoundTrip | frontend/src/components/charts/MapChart.tsx:123-145 | each of the 27 names goes to a code of the other table and back to itself |
| MapChart.CodesNameDistinctRegions | frontend/src/components/charts/MapChart.tsx:124-131 | distinct codes name distinct regions |
| MapChart.OnChartClick | frontend/src/components/charts/MapChart.tsx:38-43 | the callback fires exactly when there is a handler and a region name; an unknown name is passed as is |
| MapChart.ClickReportsCode | frontend/src/components/charts/MapChart.tsx:38-43 | clicking a known region reports a code whose name is that region |
| MapChart.SeriesData | frontend/src/components/charts/MapChart.tsx:90-107 | one item per entry in order, name converted, value unchanged, selected and highlighted by the selection rule |
| MapChart.Highlights | frontend/src/components/charts/MapChart.tsx:95 | only a selection highlights; with a known code selected, a region is highlighted exactly when its code is the selected one |
| MapChart.HighlightsExactlySelected | frontend/src/components/charts/MapChart.tsx:95 | with a code selected, a state's region is highlighted exactly when it is the selected state |
| MapChart.SameRegion | frontend/src/components/charts/MapChart.tsx:90-95 | an entry keyed by a code and one keyed by its name are drawn in the same region |
| MapChart.SelectedStateHighlighted | frontend/src/components/charts/MapChart.tsx:90-107 | the entries keyed by a state's code or name are highlighted exactly when that state is selected |
| MapChart.NothingSelected | frontend/src/components/charts/MapChart.tsx:93-95 | without a selection no item is selected or highlighted |
| MapChart.ClickHighlightsRegion | frontend/src/components/charts/MapChart.tsx:38-107 | selecting the code a click reports highlights the clicked region |
| MapChart.EntryWithinTotal | frontend/src/components/charts/MapChart.tsx:36 | with non-negative values each entry lies between 0 and the total |
| MapChart.ToFixed0 | frontend/src/components/charts/MapChart.tsx:55 | `toFixed(0)` is within one half of the number, ties away from zero |
| MapChart.PercentSuffix | frontend/src/components/charts/MapChart.tsx:55 | a percentage appears exactly when the total is positive and percentages are on |
| MapChart.TooltipFor | frontend/src/components/charts/MapChart.tsx:53-57 | the region's name, its value or 0 without data, and the suffix rule |
| MapChart.PercentInRange | frontend/src/components/charts/MapChart.tsx:55 | a share between nothing and the total reads between 0 and 100 |
| App.CategoryFilter | frontend/src/App.tsx:27-32 | "Geral" keeps all rows; the other tabs keep exactly the rows whose category is "ORGLIGHT" or "PERFIL", in order |
| App.CategoryRows | frontend/src/App.tsx:27-32 | the kept rows are exactly the input rows of the tab, and no more of them |
| App.FilteredRowsAsWritten | frontend/src/App.tsx:35-37 | without a selection all category rows; with one, exactly those whose raw `estado` equals the code |
| App.FilteredRows | frontend/src/App.tsx:35-37 | without a selection all category rows; with one, exactly those the map draws in the selected region |
| App.DashboardView | frontend/src/App.tsx:34-44 | the corrected page: cards filtered by the region the map draws; without a selection the cards equal the map |
| App.DashboardViewAsWritten | frontend/src/App.tsx:34-44 | the page as written: the same map as the corrected page, and the same page when nothing is selected |
| App.MapIgnoresSelection | frontend/src/App.tsx:35-44 | on both the as-written and the corrected page the map's metrics ignore the selection, and without one the cards and the map agree |
| App.SelectedCardMatchesRegion | frontend/src/App.tsx:35-44 | with a state selected, the quoted card shows the value of that state's map entry |
| App.StateFilterDropsSpelledOutRows | frontend/src/App.tsx:35-37 | the filter as written drops a row spelled "São Paulo" when "SP" is selected |
| App.SpelledOutSameRegion | frontend/src/lib/dashboardLogic.ts:137-153 | rows under "SP" and under "São Paulo" are both drawn in the SP region |
| App.RegionKeepsItsRows | frontend/src/App.tsx:35-37 | the region filter keeps every row drawn in the selected region |
| App.ToggleState | frontend/src/App.tsx:224 | clicking the selected code clears the selection; any other code becomes selected |
| App.ToggleTwice | frontend/src/App.tsx:224 | the same code clicked twice restores no selection or that code's selection, and clears any other selection |
| App.SwitchCategory | frontend/src/App.tsx:130-142 | a tab sets the category and clears the selection |
| App.ClickRegion | frontend/src/App.tsx:224 | a map click keeps the category and does nothing without a region name |
| App.ClickSelectsRegion | frontend/src/App.tsx:224 | a click with nothing selected selects the region's code and highlights it |
| App.ClickAgainClears | frontend/src/App.tsx:224 | two clicks on one region clear any selection other than its code, and restore the page when its code was selected |
| App.MathRound | frontend/src/App.tsx:206 | `Math.round` is within one half of the number, ties upwards |
| App.ConversionPercent | frontend/src/App.tsx:206 | 0 unless the quoted total is positive, else the rounded closed share in percent |
| App.ConversionInRange | frontend/src/App.tsx:206 | with non-negative amounts the percentage lies between 0 and 100 |
| App.DecodeCreatedRow | frontend/src/App.tsx:63-69 | each column lands in its field, the amount is parsed, the professional is "N/A" |
| App.SubmittedRowDecodes | frontend/src/App.tsx:65-69 | what the create dialog sends decodes into the row it describes, with the amount in reais |
| App.Prepend | frontend/src/App.tsx:71 | the update puts the row in front of the unchanged rows and keeps the timestamp |
| App.Optimistic | frontend/src/App.tsx:71-80 | the update is applied to the store at once; an alert shows exactly when the push rejects |
| App.NoRollback | frontend/src/App.tsx:71-95 | the store after a handler does not depend on the server's answer |
| App.HandleCreateOrder | frontend/src/App.tsx:61-81 | exactly one decoded row is put in front; the other rows and the timestamp stay; alert iff rejected |
| App.CreateDialogAlwaysCloses | frontend/src/App.tsx:73-80 | the page's handler catches its failures, so the dialog closes and resets even when the server rejects |
| App.UpdateStatus | frontend/src/App.tsx:85-88 | same length; only `status` changes, and only on the rows with the id |
| App.UpdateAbsentId | frontend/src/App.tsx:87 | an id no row carries changes nothing |
| App.UpdateLastWins | frontend/src/App.tsx:87 | the later of two updates to one id wins, and repeating one changes nothing |
| App.UpdatesCommute | frontend/src/App.tsx:87 | updates to different ids commute |
| App.HandleUpdateStatus | frontend/src/App.tsx:83-96 | the rows are rewritten before the push, the rest of the store stays, alert iff rejected |
| ProfessionalList.Top3 | frontend/src/components/charts/ProfessionalList.tsx:9 | the first min(3, n) entries, unchanged and in order |
| ProfessionalList.ShownAreLargest | frontend/src/components/charts/ProfessionalList.tsx:9 | on a ranking sorted largest first, no hidden entry outweighs a shown one |
| ProfessionalList.BarPercent | frontend/src/components/charts/ProfessionalList.tsx:17 | 0 without a positive total, else the value's share in percent |
| ProfessionalList.BarWithinTrack | frontend/src/components/charts/ProfessionalList.tsx:17 | a share between nothing and the whole gives a bar of 0 to 100 percent |
| ProfessionalList.Overflow | frontend/src/components/charts/ProfessionalList.tsx:36-39 | the label appears exactly past three entries and counts n - 3 |
| ProfessionalList.ShownPlusOverflow | frontend/src/components/charts/ProfessionalList.tsx:9-39 | the shown entries and the counted ones make up the list |
| OriginPieChart.GetColor | frontend/src/components/charts/OriginPieChart.tsx:11-21 | the colour is one of the seven rule colours or the theme colour |
| OriginPieChart.FirstMatch | frontend/src/components/charts/OriginPieChart.tsx:13-20 | with no rule firing, the fallback colour |
| OriginPieChart.FirstMatchWins | frontend/src/components/charts/OriginPieChart.tsx:13-19 | when a rule fires, the colour is that of a firing rule with none firing before it |
| OriginPieChart.GetColorIsFirstMatch | frontend/src/components/charts/OriginPieChart.tsx:11-21 | `getColor` is the first rule of the ordered table that fires on the lower-cased name, else the theme colour |
| OriginPieChart.WebsiteHoldsSite | frontend/src/components/charts/OriginPieChart.tsx:15 | a name holding "website" holds "site" |
| OriginPieChart.ColoredData | frontend/src/components/charts/OriginPieChart.tsx:23-26 | same length and order, names and values unchanged, colour by `getColor` |
| OriginPieChart.SlicesFollowRules | frontend/src/components/charts/OriginPieChart.tsx:23-26 | each slice's colour is the first rule that fires on its name |
| DeleteConfirmationModal.OnOpenChange | frontend/src/components/DeleteConfirmationModal.tsx:16-20 | opening clears the input; the dialog draws exactly while open |
| DeleteConfirmationModal.Type | frontend/src/components/DeleteConfirmationModal.tsx:52-53 | the input stores the text as typed |
| DeleteConfirmationModal.ConfirmDisabled | frontend/src/components/DeleteConfirmationModal.tsx:67-69 | the delete button is disabled iff a deletion is loading or a click would not reach `onConfirm` (the input is not exactly "CONFIRMAR"); typing "CONFIRMAR" while idle enables it |
| DeleteConfirmationModal.CancelDisabled | frontend/src/components/DeleteConfirmationModal.tsx:60-62 | a locked cancel button means a locked delete button |
| DeleteConfirmationModal.HandleConfirm | frontend/src/components/DeleteConfirmationModal.tsx:22-34 | nothing happens unless the input is exactly "CONFIRMAR"; then close on success, alert on failure, loading ends |
| DeleteConfirmationModal.EnabledConfirms | frontend/src/components/DeleteConfirmationModal.tsx:23-69 | an enabled delete button always reaches `onConfirm` |
| DeleteConfirmationModal.LowerCaseRefused | frontend/src/components/DeleteConfirmationModal.tsx:23-69 | "confirmar" neither enables the button nor confirms |
| DeleteConfirmationModal.OpeningLocks | frontend/src/components/DeleteConfirmationModal.tsx:16-69 | right after opening the button is locked and a confirm does nothing |
| DeleteConfirmationModal.LoadingLocks | frontend/src/components/DeleteConfirmationModal.tsx:60-69 | while loading both buttons are locked; after a confirmation cancel is free again |

## Left out

- Presentation: JSX, Tailwind classes, themes, the KPI and metric cards, the toast, and ECharts rendering. This includes the visual-map range, the GeoJSON fetch and `Intl.NumberFormat` display formatting. The edit dialog's amount formatting is the parameter `fmt`.
- The realtime transport: Phoenix socket connection, reconnection, real timeouts and cleanup. Only the resulting event sequence is modelled.
- The wall clock, the one-second header clock and timers. `now` is a parameter; `new Date(0)` is the fixed date 1 January 1970, as read in a time zone at or east of UTC.
- date-fns `parseISO`, `isSameDay` and `isSameMonth`. The first is a parameter; the other two compare the (day, month, year) triple.
- Dates.MakeDate: does not model JavaScript's rollover of out-of-range days and months (31/02 becomes 3 March), because date arithmetic is outside the model; such a date is kept as written.
- Floating point: amounts are exact reals. The mask's `Number(v) / 100` and `toFixed(2)` are modelled exactly on whole cents, so their loss of precision beyond about fifteen digits and the exponent form from 1e21 on are not modelled.
- App.DecodeCreatedRow: requires an amount the parse accepts. The code would store NaN for one it rejects, and NaN is not a real. The create dialog cannot submit an empty amount, because its amount input is `required` (frontend/src/components/CreateOrderModal.tsx:135); any amount typed into it is masked, and masked amounts parse (`App.SubmittedRowDecodes`). The untouched default amount "" is not masked and would not parse.
- Decimal.ParseFloatOfDecimal: covers decimal text only. `parseFloat`'s exponents and "Infinity" are not modelled, because the parsed strings never contain them.
- Decimal.ParseFloat: reads neither exponents nor "Infinity". In JavaScript `parseFloat("1e5")` is 100000 and `parseFloat("Infinity")` is Infinity, while the model gives 1 and NaN. Masked amounts never contain either form, and Infinity is not a real.
- Currency.ParseValor: inherits the ParseFloat gap, so an amount reading "Infinity" parses to NaN here and to Infinity in JavaScript. Masked amounts hold only digits, '.' and ','.
- Text.Upper: case mapping covers ASCII and Latin-1 only. Other Unicode letters, and special cases such as "ß" becoming "SS", are not modelled.
- Text.Lower: case mapping covers ASCII and Latin-1 only. Letters beyond Latin-1 are left unchanged, and one-to-many cases such as U+0130 'İ' becoming "i" plus a combining dot are not modelled. The length-keeping contract holds only for this model.
- Strings are sequences of code points rather than UTF-16 units.
- `null`/`undefined` text fields (the `?.` in search and status tests) are not modelled. Fields are always strings; only `data_fechamento` is optional.
- Prototype-inherited keys of the plain-object tables, such as looking up "toString", are not modelled.
- The origin chart's `adjustColor` (frontend/src/components/charts/OriginPieChart.tsx:69-71) is not modelled: nothing calls it, and it hands its colour back unchanged.
- The deals table's currency cell and the tooltip's currency text are `Intl` formatting and are not modelled.
- Deleting an order is modelled only as the dialog's gate. The caller of `onConfirm` is not part of this model.

## Findings

| source | as written | input that shows it | evidently intended | confidence | as-written member | corrected member |
|---|---|---|---|---|---|---|
| frontend/src/App.tsx:35-37 | with a state selected, the KPI rows are those whose raw `estado` equals the clicked code | rows with `estado` "SP" and "São Paulo"; the map draws both in São Paulo, but clicking it keeps only the first for the cards | the cards show the rows the map draws in the clicked region, so the quoted card equals that region's value | medium, not executed | App.StateFilterDropsSpelledOutRows | App.SelectedCardMatchesRegion |

The map groups states by their normalized name (`normalizeStateName`). Rows written as "SP", " sp " or "São Paulo" therefore all land in one region. The KPI filter compares the sheet's text with the code as written, so a click on that region drops every row not spelled exactly "SP".

- The as-written filter is `App.FilteredRowsAsWritten`.
- `App.FilteredRows` filters by the region the map draws, and the corrected page `App.DashboardView` uses it.
- `App.DashboardViewAsWritten` is the page as written, built on `App.FilteredRowsAsWritten`.
- `App.SelectedCardMatchesRegion` proves the corrected card equals the map entry.
