# YAM beneficiaries portal — verified model

This project models the two pieces of logic in the YAM beneficiaries portal.

The data-entry page (`pages/1_Data_Entry.py`) holds:

- the dispatch tables from a division (Divisyen) to its departments (Jabatan) and calculation methods, with their fall-backs;
- the region multiplier, 5 for the seven listed states and 7 elsewhere;
- the beneficiary calculator, one formula per method plus a manual count;
- the submission check;
- the record store: a CSV file with a fixed nine-column header, created when absent, that gains one row per submission.

The dashboard (`app.py`) holds:

- loading, where the two numeric columns are coerced and bad or missing values become 0;
- the chain of four inclusion filters (month, division, department, region), where an empty selection filters nothing;
- the KPI totals;
- the group-by sums per division, department and region;
- the department breakdown sorted by beneficiaries, largest first, and cut to 20.

Modules, one per file:

- `RecordFormat` (`record_format.dfy`): the stored row, the header, and the text of the two numeric columns.
- `DataEntry` (`data_entry.dfy`): tables, calculator, submission check.
- `Store` (`record_store.dfy`): the class `RecordStore` over the file, and the submit handler.
- `StringOrder` (`string_order.dfy`): the order of group-by keys.
- `Dashboard` (`dashboard.dfy`): loading, filters, totals.
- `Grouping` (`grouping.dfy`): group-by, sort, top 20.
- `Report` (`report.dfy`): the whole dashboard.

Conventions used throughout:

- The file is a `seq<Row>` of text cells.
- An empty cell (`""`) stands for every cell the CSV reader turns into a missing value. The reader does this for an empty cell and also for texts such as "NA", "null" and "None"; the model treats only `""` that way.
- A missing key is never selected. pandas `isin` would match a missing value if one were in the selection, but the dashboard builds its options with `dropna()` (`app.py:28`, `app.py:34`), so no selection holds one.
- A missing key is dropped by `groupby`.
- Budgets are whole cents.
- The clock reading, the timestamp-to-month labelling (`monthOf`) and the full department list read from the reference CSV are parameters.

## Model

| member | source | states |
|---|---|---|
| DataEntry.RegionFactor | pages/1_Data_Entry.py:88-90 | The multiplier is always 5 or 7, and it is 5 exactly when the state is one of the seven in `FIVE_STATES`. |
| DataEntry.CalcOptions | pages/1_Data_Entry.py:111-112 | A division missing from `CALC_CHOICES` gets exactly `["Manual"]`; a known one gets its table list. Every list offered contains "Manual", and every other method offered has a calculator branch of its own. |
| DataEntry.JabOptions | pages/1_Data_Entry.py:114-118 | A division missing from `JABATAN_BY_DIV` gets the full department list; a known one gets its own list. |
| DataEntry.CalcChoicesComplete | pages/1_Data_Entry.py:57-86 | Table invariant: every `CALC_CHOICES` list contains "Manual", and every non-"Manual" entry selects a non-manual branch of the calculator. |
| DataEntry.JabatanListsNonEmpty | pages/1_Data_Entry.py:19-55 | Every division in `JABATAN_BY_DIV` lists at least one department, so the fall-back to the full list never applies to a known division. |
| DataEntry.MethodOf | pages/1_Data_Entry.py:139-210 | The calculator's if/elif chain as a dispatch from the chosen name to a method, with the manual entry as the `else`. It has no contract of its own; `MethodNameRoundTrip`, `BranchNameMatches` and `MethodOfName` below state what it selects. |
| DataEntry.Benef | pages/1_Data_Entry.py:136-210 | The count formula of each method, with the region multiplier where the page reads it. It has no contract beyond a non-negative result; `RegionDependence`, `BenefMonotone` and the three scenario lemmas state its properties. |
| DataEntry.Calculate | pages/1_Data_Entry.py:139-210 | The count for a chosen method name: the dispatch, then the formula. It has no contract of its own; `UnknownNameIsManual` and the scenario lemmas state its results. |
| DataEntry.MethodNameRoundTrip | pages/1_Data_Entry.py:139-210 | Each calculator branch is selected by its own method name: the chain maps every method's name back to that method. |
| DataEntry.BranchNameMatches | pages/1_Data_Entry.py:139-207 | A name that selects a non-manual branch equals the name that branch tests for. |
| DataEntry.MethodOfName | pages/1_Data_Entry.py:139-210 | A name falls to the manual `else` branch if and only if no branch of the chain tests for it. |
| DataEntry.UnknownNameIsManual | pages/1_Data_Entry.py:209-210 | Any name without its own branch, "Manual" included, returns the manual count unchanged. |
| DataEntry.RegionDependence | pages/1_Data_Entry.py:144-179 | Only the domestic-packs, ambulance and blood-donation formulas depend on the region. Two regions on the same side of the five-state set always give the same count. Domestic packs are packs × 7 × the multiplier. |
| DataEntry.BenefMonotone | pages/1_Data_Entry.py:136-210 | With non-negative inputs, raising any input never lowers the count of any method. |
| DataEntry.KitchenAndGoodsScenarios | pages/1_Data_Entry.py:139-146 | Dapur Rakyat with 100 packs for 3 days gives 300. Domestic packs with 10 packs give 350 in Selangor and 490 in Sabah. |
| DataEntry.StandbyAndScholarshipScenarios | pages/1_Data_Entry.py:173-200 | A standby event with a crowd of 1000 gives 600. PDS with 100 students gives 15000. |
| DataEntry.AnimalFactor | pages/1_Data_Entry.py:206 | The Qurban factor dictionary: beneficiaries per animal of each kind. It has no contract of its own; `QurbanAndManualScenarios` pins the three factors 500, 70 and 600. |
| DataEntry.QurbanCount | pages/1_Data_Entry.py:203-207 | In any region, the Qurban entry gives the number of animals times the factor of their kind. |
| DataEntry.QurbanAndManualScenarios | pages/1_Data_Entry.py:203-210 | Qurban gives ekor × the animal's factor: 3 Lembu → 1500, 2 Kambing → 140, 1 Unta → 600. "Manual" returns the manual count. |
| DataEntry.CheckSubmission | pages/1_Data_Entry.py:216-221 | A submission is accepted if and only if division, region, department and calculation method are all non-empty. A missing division, region or department is reported before a missing method. |
| DataEntry.NewRow | pages/1_Data_Entry.py:241-251 | The written row carries the timestamp, division, department, region, Aktiviti, PIC and Lokasi, each in its own column. Its count and budget cells read back as exactly the computed count and the budget. |
| RecordFormat.FormatNatRoundTrip | pages/1_Data_Entry.py:249 | The integer text written for a beneficiary count parses back to that count. |
| RecordFormat.FormatCentsRoundTrip | pages/1_Data_Entry.py:250 | The float text written for a budget parses back to the same amount in cents. |
| RecordFormat.ParseInt | app.py:18 | Integer text is accepted if and only if it is digits, or a '-' followed by digits. |
| RecordFormat.ParseCents | app.py:18 | Budget text is accepted if and only if it is an optional '-', then digits, then optionally a '.' and one or two more digits. |
| Store.RecordStore.EnsureInitialized | pages/1_Data_Entry.py:92-96 | When the file is absent, creates the empty table with the nine-column header. Otherwise it leaves header and rows unchanged. |
| Store.EnsureTwice | pages/1_Data_Entry.py:92-96 | Idempotence: ensuring twice leaves the rows as they were, with one nine-column header. |
| Store.RecordStore.Append | pages/1_Data_Entry.py:98-101 | Afterwards the file exists, and its rows are the old rows unchanged and in order, followed by exactly the new row. |
| Store.RecordStore.Submit | pages/1_Data_Entry.py:216-251 | Writes nothing unless the submission check accepts. When it accepts, the file gains exactly one row, with the calculator's count for the chosen method, inputs and region. |
| Store.SubmittedRowLoadsBack | pages/1_Data_Entry.py:241-251 | When the store's file is the earlier rows plus the row a submission writes, the dashboard loads the earlier entries unchanged and in order. It then loads one entry with exactly the computed count and the budget, and with the timestamp, division, department, region, Aktiviti, PIC and Lokasi as written. |
| Dashboard.ToCount | app.py:17-18 | Coercion of the count column: text that is a number gives that number, anything else gives 0. |
| Dashboard.ToCents | app.py:17-18 | Coercion of the budget column: text that is a number gives that amount in cents, anything else gives 0. |
| Dashboard.Coerce | app.py:14-18 | A loaded entry keeps every text cell, takes the month label of its timestamp, and carries both numeric cells coerced. |
| Dashboard.CoerceAll | app.py:14-18 | The column-wise coercion applied to every row: one entry per row, in order, each the coerced row. |
| Dashboard.LoadAsWritten | app.py:9-19 | A missing file gives an empty table whose columns are the nine stored ones, with no Month. A present file gives its rows coerced, with Month added. |
| Dashboard.Load | app.py:9-19 | The loader with the empty-table case fixed: Month is always a column, a missing file gives no entries, and a present file gives one coerced entry per row, in order. |
| Dashboard.CoerceAllAppend | app.py:14-18 | Loading a table that gained one row gives the old entries followed by that row's entry. |
| Dashboard.Select | app.py:30-37 | `df[df[col].isin(sel)]` as a recursive filter over the rows. It has no contract of its own; `SelectMeaning` states what it keeps. |
| Dashboard.SelectMeaning | app.py:36-37 | `df[df[col].isin(sel)]` keeps a subsequence of the rows: each row whose value is chosen keeps all its occurrences, and no other row is kept. |
| Dashboard.FilteredMultiset | app.py:30-37 | The reference filter keeps a subsequence: each row passing every filter keeps all its occurrences, and no other row is kept. |
| Dashboard.FilterStep | app.py:30-37 | One step of the chain, its `if sel:` guard included, turns the reference result for the filters so far into the result for one more filter. |
| Dashboard.ApplyFilters | app.py:28-37 | The month filter followed by the loop over division, department and region gives exactly the rows that pass all four selections, in their original order. |
| Dashboard.FilteredMeaning | app.py:30-37 | Every kept row passes every filter. Every row that passes is kept. When all selections are empty, the rows are returned unchanged. |
| Dashboard.Total | app.py:40-41 | The KPI total is 0 for an empty table and is non-negative when every value is. |
| Dashboard.TotalAppend | app.py:40-41 | One more row adds exactly its own value to the total. |
| Grouping.Keys | app.py:50-53 | The group keys are strictly ascending, so no key repeats. They are exactly the non-missing values occurring in the column. |
| Grouping.GroupSum | app.py:50-67 | The group-by aggregation: one group per key, in key order, each carrying its beneficiary and budget sums. It has no contract of its own; `GroupSumMeaning` states it. |
| Grouping.GroupsPartition | app.py:50-53 | Over distinct keys covering every keyed row, the group sums add up to the sum over the rows that have a key. |
| Grouping.GroupSumMeaning | app.py:50-67 | The group-by output has each key once, in ascending order. Its keys are exactly the values occurring in the rows. Each group carries the beneficiary and budget sums of its own rows, and the group sums add up to the sum over the rows that have a key. |
| Grouping.SumKeyedTotal | app.py:40-53 | When no row lacks the key, that sum equals the KPI total. |
| Grouping.InsertDesc | app.py:57-60 | Inserting a group into a breakdown sorted largest first keeps it sorted, and adds exactly that group. |
| Grouping.SortDesc | app.py:57-60 | The sorted breakdown is non-increasing by beneficiaries and is a permutation of the breakdown. |
| Grouping.TopN | app.py:57-60 | `sort_values(..., ascending=False).head(20)`: the sorted breakdown cut to its first n groups. It has no contract of its own; `TopNMeaning` and `TopNDistinct` state it. |
| Grouping.TopNMeaning | app.py:57-60 | `head(20)` keeps min(20, n) groups. They are non-increasing, form a prefix of the full sorted breakdown, and are all groups of the breakdown. |
| Grouping.TopNDistinct | app.py:57-60 | Cutting a breakdown with distinct keys keeps the keys distinct. |
| Report.Summarize | app.py:40-67 | The two KPIs, and the three breakdowns when any row is left. It has no contract of its own; `SummaryMeaning` and `SummaryGroupBy` state its properties. |
| Report.SummaryMeaning | app.py:39-67 | For any filtered rows, the division and region breakdowns add up to the sums over rows that have that key, and to the KPI totals when no row lacks one. The department breakdown has at most 20 groups, is sorted largest first, has no repeated keys, and is a prefix of the full sorted breakdown. |
| Report.SummaryGroupBy | app.py:50-67 | For any filtered rows, the division and region breakdowns are the group-by of those rows: each occurring value once as a key, in ascending order, no other key, and each group with the two sums of its own rows. The department breakdown keeps min(20, number of departments) groups. |
| Report.ShowDashboard | app.py:24-67 | The dashboard shows the summary of exactly the loaded rows that pass the four selections. |
| Report.DashboardAsWritten | app.py:9-31 | The dashboard over the loader as written: the lookup of the Month column fails when the loaded table lacks it, and otherwise the summary of the filtered rows is shown. It has no contract of its own; `MissingFileFailsAsWritten` and `CorrectedLoadAgrees` state its results. |
| Report.MissingFileFailsAsWritten | app.py:9-31 | As written, with no data file the dashboard fails on the missing Month column, whatever is selected. |
| Report.CorrectedLoadAgrees | app.py:9-31 | With the corrected loader, a missing file shows zero totals and no breakdowns. For a present file the result is the same as the loader as written. |

## Findings

| source | as written | input that shows it | evidently intended | confidence | as-written member | corrected member |
|---|---|---|---|---|---|---|
| app.py:9-13 | For a missing file, `load_data` returns a frame with the nine stored columns and no `Month` column. Line 28 then reads `df["Month"]`, which raises KeyError. | No `data/beneficiaries.csv` yet, e.g. a fresh deployment before the first submission. | Show the empty dashboard with zero totals, as for a file holding only the header. | high; not executed | Report.MissingFileFailsAsWritten | Report.CorrectedLoadAgrees |

Both halves are in the model. `Dashboard.LoadAsWritten` and `Report.DashboardAsWritten` model the code as written. `Dashboard.Load`, used by `Report.ShowDashboard`, adds the Month column to the empty table.

## Left out

- DataEntry.Benef: `int(crowd * 0.60)` and `int(students * 750 * 0.20)` are modelled as the exact integers `crowd * 3 / 5` and `students * 150`. The two agree while the float product stays below 2^53. Beyond that, float rounding can move the result either way, by more than one.
- Dashboard.ToCount: only digits with an optional leading '-' are read as a number. pandas `to_numeric` also accepts '+', surrounding spaces, decimals and exponents, which this model coerces to 0.
- Dashboard.ToCents: only an optional '-', digits, and one or two decimals are read. Any other text the float parser would accept is coerced to 0. Budget sums are exact cents rather than float sums.
- Grouping.SortDesc: it is a stable sort, so tied groups stay in key order. pandas' default quicksort is not stable, so with ties the source may pick different departments for the top 20. Sortedness, the permutation property and the prefix property hold for any correct sort.
- The Month label: the timestamp parsing and period labelling (`to_datetime`, `to_period("M")`, "NaT" for unparseable stamps) are the parameter `monthOf`.
- The parsed Timestamp column: `app.py:15` replaces the Timestamp column with its parsed date-time, and the model keeps the text. Only the detail table reads that column, and it is not modelled.
- The multiselect options: the options and default selections of all four multiselects are not modelled, so any selection is allowed. The source builds each option list from the frame the earlier filters have already narrowed (`app.py:34`).
- The clock (`datetime.now()`) is a parameter, and so is the full department list read by `load_lists`.
- The data-entry page reads Aktiviti, PIC and Lokasi from session keys that are never set (lines 222, 231-232, 247-248), so it stores them empty. The model takes them as parameters. The unused `new_row` dictionary (lines 225-239) is not modelled.
- File-system and CSV mechanics are not modelled: paths, directory creation, quoting, header reading and column inference. The store assumes a file written by this page, whose header is the nine columns. A file whose header also has a calculation-method column, or has any other header, is not modelled.
- The stored row has no calculation-method column, because the page does not write one. A department-to-default-method lookup does not exist in this code either.
- The user interface is not modelled: widgets, forms, messages, `st.rerun`, `time.sleep`, charts, the detail table, the CSV download, the 60-second cache and the reload button.
- Concurrent writers are not modelled. Two interleaved read-append-rewrite cycles can lose a row; the model runs one submission at a time.
