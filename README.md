# Family finance app: verified model of its core

The application is a personal finance dashboard. It tracks payment cards, the
expenses and incomes charged to them, product line items inside an expense,
and a catalogue of Aldi supermarket products. A small Node script also merges
two LCOV coverage reports into one. This project models the logic of those
parts in Dafny and proves properties of the model. It covers:

- **Expenses page** (`src/pages/Expenses.tsx`):
  - the rank taken from an expense id by the regular expression `/(\d+)(?!.*\d)/`;
  - the sort by rank inside each card;
  - the running total of each expense (`sumUpToById`) and the credit left on the card after it;
  - the table rows with date dividers;
  - the total credit;
  - the page's state handlers: card change, expand, add, delete, select, select all, delete selected.
- **Coverage merge** (`scripts/merge-lcov.mjs`):
  - parsing an LCOV text into a map from file name to line hits;
  - merging two maps by taking the maximum per line;
  - writing the merged report back out, with `LF`/`LH` counts.
- **Dashboard** (`src/pages/Dashboard.tsx`):
  - the overall totals;
  - the labels of the last six months;
  - the per-month sums that feed the charts.
- **Incomes page** (`src/pages/Incomes.tsx`): the card filter, the selection checkboxes, and adding and deleting incomes.
- **Aldi page** (`src/pages/Aldi.tsx`): the name and category filters and pagination of the product list.
- **Expanded expense row** (`src/components/dashboard/ExpandedExpenseRow.tsx`):
  - the table cells of a row;
  - the fetch-once effect for an expense's products;
  - the budget check when a product is added.

There are two styles of model:

- **Pure code** is modelled with datatypes, functions and lemmas. This covers rank extraction, filters, totals, month keys and the LCOV parser as a state machine.
- **Code that changes state is modelled imperatively:**
  - A React component's `useState` variables become a `class` whose fields hold them. Each handler becomes a `method` with a `modifies this` clause that states the whole new state.
  - A script loop that builds up a map or a string becomes a loop (`while` or `for`). Its contract says that it equals a specification function: `GroupByCard`, `Accumulate`, `SumUpToById`, `ParseLcov`, `MergeMaps`, `Emit`, `AggregateByMonth` and `BuildExpenseRows`.

Modelling conventions:

- **Money is `int`.**
- **Arrays and ordered dictionaries.** JavaScript arrays become `seq`. A JavaScript `Map`, which keeps insertion order, becomes a `map` together with a `seq` of keys in insertion order (`Lcov.Coverage`).
- **Missing values.** An optional field or a missing query result becomes `Option`.

Where the source depends on the browser (dates, the clock, locale, number parsing), that dependency becomes a function parameter. `parseDate`, `dayKey`, `shortMonth` and `parseAmount` are examples.

Two points where the code's behaviour is narrower than its own wording:

- **Rank of a multi-line id.** The comments at `src/pages/Expenses.tsx:159` and `:163` describe the rank as the trailing, or last, number of the id. In the regular expression, however, `.` does not match a line terminator. So for an id that spans lines, the rank is the last digit run of the *first* line that holds a digit, not the last digit run of the whole string (`Rank.FirstLineWins`). For single-line ids the two agree (`Rank.SingleLineRank`). The model follows the regular expression.
- **Expense product fields.** The add-product form keeps only `name`, `quantity` and `price` (`Pick<ExpenseProduct, 'name' | 'quantity' | 'price'>` at `src/components/dashboard/ExpandedExpenseRow.tsx:66`), and the component's test data has those fields and an id. The model's `ExpenseProduct` has exactly these four.

Modules:

- **Shared:**
  - `Seqs`: filter, subsequence and no-duplicates helpers.
  - `Text`: digits, lower-casing, `includes`, `trim` and `padStart`.
  - `Common`: transactions, cards and sums.
  - `Selection`: the checkbox toggle shared by the two pages.
- **Expenses page:** `Rank`, `RunningBalance`, `ExpenseRows` and `ExpensesPage`.
- **Coverage merge:** `LcovText`, `Lcov` (parsing and merging), `LcovEmit` (writing) and `LcovRoundTrip` (what is written parses back to the merged map).
- **Other pages:** `Dashboard`, `IncomesPage`, `Aldi` and `ExpandedRow`.

## Model

| member | source | states |
|---|---|---|
| Rank.IdRank | src/pages/Expenses.tsx:160-167 | A missing or empty id ranks 0. An id without a digit ranks as itself, a string. Otherwise the rank is the number read from the regular expression's match. |
| Rank.MatchFrom | src/pages/Expenses.tsx:162-164 | A match, when found, is a non-empty run of digits, so `Number` reads it as a whole number. |
| Rank.RankOf | src/pages/Expenses.tsx:160-167 | Every rank `idRank` returns is a number, or a non-empty string without a digit. |
| Rank.MatchIffDigit | src/pages/Expenses.tsx:162-164 | The regular expression finds a match at or after a position exactly when a digit occurs there. |
| Rank.SingleLineRank | src/pages/Expenses.tsx:162-165 | For an id without line terminators, the rank is the value of the last maximal digit run. |
| Rank.FirstLineWins | src/pages/Expenses.tsx:162-163 | `"a1\nb2"` ranks 1, not 2, because `.` stops at the line terminator. |
| Rank.CompareAntisymmetric | src/pages/Expenses.tsx:184-185 | The comparator is antisymmetric: swapping its arguments negates the result. |
| Rank.CompareReflexive | src/pages/Expenses.tsx:184-185 | Every rank compares equal to itself. |
| Rank.CompareRanks | src/pages/Expenses.tsx:180-186 | Two numbers compare by size, and equal exactly when they are equal. Otherwise the comparison is zero exactly when the two `String` forms agree. Against a number, a string that starts with a non-digit sorts after it exactly when that character comes after `9`, and before it exactly when the character comes before `0`. |
| Rank.CompareTransitive | src/pages/Expenses.tsx:184-185 | Over the ranks `idRank` returns (numbers, and non-empty strings without a digit), the comparator is transitive, also when numbers and strings are mixed. |
| Rank.InsertByRank | src/pages/Expenses.tsx:180-186 | Inserting one expense adds exactly that expense to the group, as a multiset. |
| Rank.SortByRank | src/pages/Expenses.tsx:180-186 | Sorting a card's expenses is a permutation of them. |
| Rank.InsertSorted | src/pages/Expenses.tsx:180-186 | Inserting into a sorted group keeps it sorted. |
| Rank.SortByRankSorted | src/pages/Expenses.tsx:180-186 | Every group comes out of the sort ordered by rank. |
| Rank.InsertStable | src/pages/Expenses.tsx:180-186 | Insertion keeps the relative order of the elements of each rank. |
| Rank.SortByRankStable | src/pages/Expenses.tsx:180-186 | The sort is stable: the expenses sharing a rank keep their input order. |
| RunningBalance.CardKeys | src/pages/Expenses.tsx:174-178 | The card keys have no duplicates. A key is present exactly when some expense has it as `String(card_id ?? '')`. |
| RunningBalance.GroupByCard | src/pages/Expenses.tsx:174-178 | The `byCard` loop leaves one entry per card key, holding exactly that card's expenses in input order. |
| RunningBalance.GroupNext | src/pages/Expenses.tsx:174-178 | One loop iteration extends the grouping of a prefix to the grouping of the next prefix. |
| RunningBalance.GroupMembership | src/pages/Expenses.tsx:174-178 | Every expense is in the group of its own card and in no other group. |
| RunningBalance.GroupsPartition | src/pages/Expenses.tsx:174-178 | The group sizes add up to the number of expenses. |
| RunningBalance.Written | src/pages/Expenses.tsx:187-192 | Definition of the writes `if (id) map[id] = acc` of one sorted group, `acc` being the sum of the amounts so far. |
| RunningBalance.Accumulate | src/pages/Expenses.tsx:187-192 | The accumulation loop equals the running-sum writes of the specification. |
| RunningBalance.WrittenKeys | src/pages/Expenses.tsx:187-192 | An id gets an entry exactly when it is non-empty and some expense in the group has it. |
| RunningBalance.WrittenAt | src/pages/Expenses.tsx:187-192 | The value stored for an id is the sum of the amounts up to and including its last occurrence. |
| RunningBalance.GroupTotalAtLast | src/pages/Expenses.tsx:187-192 | The last expense of a group holds the group's whole total. |
| RunningBalance.WrittenMonotone | src/pages/Expenses.tsx:187-192 | With non-negative amounts, a later expense's running total is at least an earlier one's. |
| RunningBalance.SumUpToById | src/pages/Expenses.tsx:171-196 | The memoised map equals the running totals over all card groups, each sorted by rank. |
| RunningBalance.RunningTotals | src/pages/Expenses.tsx:171-196 | Definition of the map `sumUpToById` returns: the writes of every card group, each sorted by rank, in first-seen card order. |
| RunningBalance.RunningTotalsKeys | src/pages/Expenses.tsx:171-196 | The map has an entry exactly for the non-empty ids of the expenses. |
| RunningBalance.RunningTotalOf | src/pages/Expenses.tsx:171-196 | An expense whose id no other expense shares maps to the sum of its sorted group up to and including itself. |
| RunningBalance.CreditDeltaAfter | src/pages/Expenses.tsx:87-92 | The value is defined exactly when the charged card has a numeric initial credit. It is that credit minus the running total, or minus 0 when there is no id or no entry. |
| RunningBalance.CreditAfterRunningTotal | src/pages/Expenses.tsx:87-92 | The credit shown after an expense is the card's initial credit minus the sum of its sorted group up to that expense. |
| ExpenseRows.ColSpan | src/pages/Expenses.tsx:79 | The divider spans 7 columns exactly when the selected card is "all", and 6 otherwise. |
| ExpenseRows.RowFor | src/pages/Expenses.tsx:93-107 | An expense row shows that expense. It is expanded exactly when its defined id is the expanded one, and selected exactly when `id ?? ''` is selected. Its credit column is the credit after that expense. |
| ExpenseRows.BuildExpenseRows | src/pages/Expenses.tsx:70-109 | The row-building loop equals the specification rows. |
| ExpenseRows.RowsLength | src/pages/Expenses.tsx:72-86 | There is one row per expense plus one divider per change of day. |
| ExpenseRows.RowAt | src/pages/Expenses.tsx:72-107 | Each expense's row is at its computed position. The row before it is a divider exactly when the day changed there. |
| ExpenseRows.FirstRowIsExpense | src/pages/Expenses.tsx:74 | No divider comes before the first expense. |
| ExpenseRows.RowsKeepOrder | src/pages/Expenses.tsx:72-108 | Dropping the dividers gives back exactly the expenses, in order. |
| ExpensesPage.TotalCredito | src/pages/Expenses.tsx:223-232 | For "all", the total is the sum of initial credits minus expenses plus incomes. For an unknown card it is 0. For a known card it is that card's credit minus expenses plus incomes, where a `null` credit counts as 0. |
| ExpensesPage.AddingLowersCredit | src/pages/Expenses.tsx:223-232 | Adding an expense lowers the total credit by its amount. |
| ExpensesPage.RemovingRaisesCredit | src/pages/Expenses.tsx:223-232 | Removing expenses raises the total credit by the sum of the removed amounts. |
| ExpensesPage.CreditWalkThrough | src/pages/Expenses.tsx:223-232 | A card with 500 shows 480 after a 20 expense, and 405 after a further 75. A card with a `null` credit shows -20 after the 20 expense. |
| ExpensesPage.DefinedIds | src/pages/Expenses.tsx:288-291 | The ids are exactly the defined ids of the fetched expenses. |
| ExpensesPage.DefinedIdsInOrder | src/pages/Expenses.tsx:288-291 | There is one id per expense that has one, in list order, so order and repeats are kept. |
| ExpensesPage.DeleteSelectedKeepsOthers | src/pages/Expenses.tsx:304 | The optimistic delete removes exactly the selected expenses. It keeps every other expense, in order. |
| ExpensesPage.ExpensesPage.constructor | src/pages/Expenses.tsx:113-119 | The page starts with card "all", no expenses, an empty selection, no expanded row and empty form fields. |
| ExpensesPage.ExpensesPage.OnExpensesLoaded | src/pages/Expenses.tsx:139-143 | Fetched expenses replace the list. Nothing else changes. |
| ExpensesPage.ExpensesPage.OnCardChange | src/pages/Expenses.tsx:235-249 | The new card is selected. The selection, expanded row, form and card editor are cleared, and the list is kept. |
| ExpensesPage.ExpensesPage.HandleExpandRow | src/pages/Expenses.tsx:147-149 | Expanding toggles between the given row and none. |
| ExpensesPage.ExpensesPage.HandleDeleteExpense | src/pages/Expenses.tsx:252-255 | Every expense with that id is removed, the rest are kept in order, and the delete request is issued. |
| ExpensesPage.ExpensesPage.HandleAddExpense | src/pages/Expenses.tsx:258-277 | With an incomplete form or card "all", nothing happens. Otherwise the new expense on the selected card goes first, the request is issued and the form is cleared. |
| ExpensesPage.ExpensesPage.HandleSelect | src/pages/Expenses.tsx:279-283 | The id is toggled in the selection. |
| ExpensesPage.ExpensesPage.HandleSelectAll | src/pages/Expenses.tsx:285-296 | Checking selects every defined id of the fetched expenses. Unchecking, or no data, clears the selection. |
| ExpensesPage.ExpensesPage.HandleDeleteSelected | src/pages/Expenses.tsx:298-309 | With nothing selected, nothing is requested. Otherwise the selected expenses are removed, one bulk request is issued and the selection is cleared. |
| Common.TotalOf | src/pages/Expenses.tsx:218-221 | With no data the total is 0. Otherwise it is the sum of the amounts. |
| Common.SumAmountsAppend | src/pages/Expenses.tsx:214-216 | The sum of a concatenation is the sum of its parts. |
| Common.FindCard | src/pages/Expenses.tsx:224 | `find` returns the first card with that id, and nothing exactly when no card has it. |
| Selection.Toggle | src/pages/Expenses.tsx:279-283 | An id that is present is removed, with all its copies, and the rest keep their counts and order. An absent id is appended. Afterwards the id is selected exactly when it was not before. |
| Selection.RemoveAll | src/pages/Expenses.tsx:281 | `filter(i => i !== id)` drops every copy of the id and keeps the other elements in order. |
| Selection.ToggleTwiceAbsent | src/pages/Expenses.tsx:279-283 | Toggling an unselected id twice restores the selection. |
| Selection.ToggleTwicePresent | src/pages/Expenses.tsx:279-283 | Toggling a selected id twice keeps the same set of ids but moves that id to the end. |
| LcovText.JoinSplit | scripts/merge-lcov.mjs:21 | Joining the pieces of `split(',')` gives back the text. |
| LcovText.SplitJoin | scripts/merge-lcov.mjs:21 | Splitting joined pieces that hold no separator gives back the pieces. |
| LcovText.LinesOf | scripts/merge-lcov.mjs:15 | `split(/\r?\n/)` gives one piece per line feed plus one. |
| LcovText.LinesOfJoinLines | scripts/merge-lcov.mjs:15 | `split(/\r?\n/)` of lines each followed by `\n` gives back the lines, plus an empty last piece. |
| Lcov.Put | scripts/merge-lcov.mjs:17-26 | `Map.set` replaces the entry. A new key is appended to the insertion order, and an existing key keeps its place. |
| Lcov.NumberOf | scripts/merge-lcov.mjs:22-23 | A number is read exactly when the field is a digit string, and it is that string's decimal value. The empty field reads 0, as `Number('')` does. |
| Lcov.NumberOfNatToString | scripts/merge-lcov.mjs:22-23 | Every number written in decimal reads back as itself. |
| Lcov.Step | scripts/merge-lcov.mjs:17-29 | One line keeps the parser state consistent: the files have no duplicate and their order and map agree, and an open file is one of them. |
| Lcov.Run | scripts/merge-lcov.mjs:16-30 | The loop over the lines keeps the parser state consistent. |
| Lcov.Parse | scripts/merge-lcov.mjs:12-32 | `parseLcov` returns a consistent report: file order without duplicates, matching the keys of the map. |
| Lcov.ParseLcov | scripts/merge-lcov.mjs:12-32 | The parsing loop equals the line-by-line parser specification. |
| Lcov.RunAppend | scripts/merge-lcov.mjs:16-30 | Parsing two line lists in turn is parsing their concatenation. |
| Lcov.DaOutsideRecordIgnored | scripts/merge-lcov.mjs:20 | A `DA:` line with no open file changes nothing. |
| Lcov.EndOfRecordCloses | scripts/merge-lcov.mjs:27-28 | `end_of_record` closes the current file and keeps the collected data. |
| Lcov.DaKeepsMaximum | scripts/merge-lcov.mjs:20-26 | A `DA:` line in an open file stores the maximum of the old and new hits for that line. |
| Lcov.RepeatedFileReopens | scripts/merge-lcov.mjs:17-19 | An `SF:` line for a file already seen reopens it without clearing its data. |
| Lcov.DaFieldsIgnoreTail | scripts/merge-lcov.mjs:21 | Fields after the second comma (a checksum) are ignored. |
| Lcov.MaxMergeProperties | scripts/merge-lcov.mjs:38-41 | The merged line map has the union of the line numbers. Each value is one of the inputs' hits and bounds both of them. The merge is commutative. |
| Lcov.MaxMergeIdempotent | scripts/merge-lcov.mjs:38-41 | Merging a line map with itself changes nothing. |
| Lcov.MaxMergeEmpty | scripts/merge-lcov.mjs:37-41 | Merging with an empty line map changes nothing. |
| Lcov.MergeLineMaps | scripts/merge-lcov.mjs:38-41 | The inner loop computes the per-line maximum merge. |
| Lcov.MergeMaps | scripts/merge-lcov.mjs:34-45 | `mergeMaps` equals the merge specification. |
| Lcov.Merge | scripts/merge-lcov.mjs:34-45 | Merging two consistent reports gives a consistent one. |
| Lcov.MergeNext | scripts/merge-lcov.mjs:36-43 | One outer iteration merges one more file of the second report. |
| Lcov.MergeFile | scripts/merge-lcov.mjs:37-42 | A file's entry becomes the max-merge of its old line map, or an empty one, with the second report's. |
| Lcov.MergeUpToKeys | scripts/merge-lcov.mjs:36-43 | After n iterations, the files are those of the first report plus the first n files of the second. |
| Lcov.MergeUpToValues | scripts/merge-lcov.mjs:36-43 | After n iterations, a file already visited holds the max-merge of both reports, and any other file holds the first report's data. |
| Lcov.MergeUpToOrder | scripts/merge-lcov.mjs:36-43 | After n iterations, the order is the first report's files, then the newly seen files of the second in their order. |
| Lcov.MergeContents | scripts/merge-lcov.mjs:34-45 | The merged report holds exactly the files of either input, each with the per-line maximum. |
| Lcov.MergeOrder | scripts/merge-lcov.mjs:34-45 | The merged files are in order: the first report's, then the second's new ones. |
| Lcov.MergeSelf | scripts/merge-lcov.mjs:34-45 | Merging a report with itself gives it back. |
| Lcov.MergedReports | scripts/merge-lcov.mjs:47-52 | Reading both reports, each possibly missing, and merging them gives a consistent report. |
| Lcov.MissingReportIsEmpty | scripts/merge-lcov.mjs:47-52 | A missing second report counts as empty, so the result is the first report alone. |
| LcovEmit.SortedKeys | scripts/merge-lcov.mjs:58 | The line numbers are listed once each, in increasing order. |
| LcovEmit.IncreasingUnique | scripts/merge-lcov.mjs:58 | Any two increasing lists of the same line numbers are equal, so the sorted order is unique. |
| LcovEmit.CountHits | scripts/merge-lcov.mjs:60 | `LH` is at most `LF`. It equals `LF` exactly when every line was hit, and is 0 exactly when none was. |
| LcovEmit.HitAtMostFound | scripts/merge-lcov.mjs:59-62 | The total lines hit never exceeds the total lines found. |
| LcovEmit.RecordText | scripts/merge-lcov.mjs:63-69 | A record is the `SF:` line, the `DA:` lines, then `LF:`, `LH:` and `end_of_record`, each line ending in a line feed. |
| LcovEmit.WriteDaLines | scripts/merge-lcov.mjs:64-66 | The `DA:` loop appends one line per entry. |
| LcovEmit.WriteRecord | scripts/merge-lcov.mjs:58-69 | One file's block is its record text, with `LF` = number of lines and `LH` = lines hit. |
| LcovEmit.Emit | scripts/merge-lcov.mjs:54-70 | The output loop writes the records in merged order. Its totals are the summed `LF` and `LH`. |
| LcovEmit.EmitNext | scripts/merge-lcov.mjs:57-70 | One iteration appends one file's record and adds its counts. |
| LcovRoundTrip.ParseWellFormed | scripts/merge-lcov.mjs:12-32 | Every parsed report is well formed. File names are trimmed and hold no line break. The key order matches the map. The name `""` (from `SF:` followed by blanks) occurs only with no lines. |
| LcovRoundTrip.MergedReportsWellFormed | scripts/merge-lcov.mjs:47-52 | The merged report is well formed. |
| LcovRoundTrip.BlockRoundTrip | scripts/merge-lcov.mjs:63-69 | Parsing one written block adds exactly that file, with its line map. |
| LcovRoundTrip.RoundTrip | scripts/merge-lcov.mjs:54-70 | Parsing the written text of a well-formed report gives back that report. |
| LcovRoundTrip.MergedReportRoundTrip | scripts/merge-lcov.mjs:47-70 | The written merged file parses back to the merged map. |
| LcovRoundTrip.ReparseStable | scripts/merge-lcov.mjs:12-32 | Writing out a parsed report and parsing it again changes nothing. |
| Dashboard.UseTotals | src/pages/Dashboard.tsx:21-30 | Each total is the sum over the loaded data, 0 when missing. The current credit is the initial credit plus incomes minus expenses. |
| Dashboard.CreditFollowsTransactions | src/pages/Dashboard.tsx:28 | One more income raises the current credit by its amount. One more expense lowers it by its amount. |
| Dashboard.CardWithoutCredit | src/pages/Dashboard.tsx:27 | A card without an initial credit adds nothing to the total. |
| Dashboard.TotalsWalkThrough | src/pages/Dashboard.tsx:21-30 | Expenses 50+30+20, incomes 2000+500 and credits 1000+500 give 100, 2500, 1500 and 3900. |
| Dashboard.IndexRoundTrip | src/pages/Dashboard.tsx:47 | Converting a month to its index and back is the identity. |
| Dashboard.ShiftMonths | src/pages/Dashboard.tsx:44-47 | Shifting by `delta` months gives a valid month whose index is `delta` past the start's. |
| Dashboard.ShiftOneMore | src/pages/Dashboard.tsx:47 | Shifting by one more month is the next month of the shift. |
| Dashboard.TwoDigits | src/pages/Dashboard.tsx:48 | For a month from 1 to 12, the padded month is two digits that read back as the month. |
| Dashboard.MonthKey | src/pages/Dashboard.tsx:48 | The key is the year, a dash and the month padded to two digits. |
| Dashboard.MonthKeyInjective | src/pages/Dashboard.tsx:48 | Distinct months have distinct keys. |
| Dashboard.LastMonths | src/pages/Dashboard.tsx:43-47 | There are `count` months (none when `count` is not positive). The k-th is the current month shifted by k - (count - 1). |
| Dashboard.LastMonthsConsecutive | src/pages/Dashboard.tsx:43-48 | The months are consecutive and end at the current month. |
| Dashboard.LastMonthsDistinctKeys | src/pages/Dashboard.tsx:43-48 | No two labels share a key. |
| Dashboard.BuildLastMonthsLabels | src/pages/Dashboard.tsx:40-53 | The loop yields one key-and-label entry per month, oldest first. |
| Dashboard.ParseDateSafe | src/pages/Dashboard.tsx:32-38 | An empty date yields nothing. Otherwise the result is the date parser's. |
| Dashboard.AggregateByMonth | src/pages/Dashboard.tsx:55-65 | With no items, the map is empty. Otherwise it has a key exactly for the months some item parses to, and each value is that month's total. |
| Dashboard.AddToBucket | src/pages/Dashboard.tsx:58-63 | One iteration keeps the bucket invariant for one more item. An unparsable date is skipped. |
| Dashboard.MonthTotalSnoc | src/pages/Dashboard.tsx:62 | One more item adds its amount to its own month only. |
| Dashboard.HasMonthSnoc | src/pages/Dashboard.tsx:62 | One more item adds its own month's key and no other. |
| Dashboard.NoItemsNoTotal | src/pages/Dashboard.tsx:62 | A month with no items totals 0. |
| Dashboard.BucketsAddUp | src/pages/Dashboard.tsx:55-65 | The bucket totals add up to the sum of the items whose date parses. No amount is lost or counted twice. |
| Dashboard.Series | src/pages/Dashboard.tsx:131-133 | There is one chart value per month label. |
| Dashboard.SeriesIsMonthTotals | src/pages/Dashboard.tsx:131-133 | The chart value of each labelled month is that month's total, or 0. |
| IncomesPage.DisplayedIncomes | src/pages/Incomes.tsx:129-134 | The shown incomes are a subsequence of the fetched ones. They are exactly those on the selected card, or all of them for "all". |
| IncomesPage.AllShowsEverything | src/pages/Incomes.tsx:131 | "all" shows every fetched income. |
| IncomesPage.DisplayedExactly | src/pages/Incomes.tsx:129-134 | Each income is shown as many times as it was fetched if it is on the card, and otherwise not at all. |
| IncomesPage.TotalCountsHidden | src/pages/Incomes.tsx:125-127 | The page total includes the incomes hidden by the card filter: it is shown plus hidden. |
| IncomesPage.IdsOf | src/pages/Incomes.tsx:87 | `map(income => income.id!)` gives one id per income, the i-th being the i-th income's id. |
| IncomesPage.SelectAllTicksShownRows | src/pages/Incomes.tsx:85-92 | After select-all, every shown row that has an id is ticked. |
| IncomesPage.SelectAllLeavesOtherCards | src/pages/Incomes.tsx:85-92 | After select-all, when ids are distinct, no fetched income off the card is ticked. |
| IncomesPage.IdsOfDistinct | src/pages/Incomes.tsx:87 | With distinct ids, an income that shares a shown income's id is on the selected card. |
| IncomesPage.SelectAllTicksHeader | src/pages/Incomes.tsx:304 | For "all", select-all makes the header checkbox ticked. |
| IncomesPage.IncomesPage.constructor | src/pages/Incomes.tsx:43-58 | The page starts with card "all", empty form fields and an empty selection. |
| IncomesPage.IncomesPage.HandleCardChange | src/pages/Incomes.tsx:70-73 | The new card is selected and the selection is cleared. |
| IncomesPage.IncomesPage.HandleSelect | src/pages/Incomes.tsx:75-83 | The id is toggled in the selection. |
| IncomesPage.IncomesPage.HandleSelectAll | src/pages/Incomes.tsx:85-92 | Checking selects the ids of the shown incomes. Unchecking clears the selection. |
| IncomesPage.IncomesPage.NewIncome | src/pages/Incomes.tsx:96-105 | The new income has the form's fields. Its card is the selected one, or none for "all". |
| IncomesPage.IncomesPage.HandleAddIncome | src/pages/Incomes.tsx:94-112 | With an incomplete form, nothing happens. Otherwise the add request is issued, followed by a refetch of the list, and the form is cleared. |
| IncomesPage.IncomesPage.HandleDeleteSelected | src/pages/Incomes.tsx:119-123 | The bulk delete is issued for the selection, even an empty one, followed by a refetch. The selection is cleared. |
| Aldi.FilterFetched | src/pages/Aldi.tsx:48-52 | A filter over the fetched products keeps those that pass, in order, each as many times as it was fetched, and drops the others. With no data, nothing is kept. |
| Aldi.EffectFilter | src/pages/Aldi.tsx:46-54 | The effect keeps the products whose lower-cased name contains the lower-cased search, in order and each as many times as it was fetched, and drops the others. For a category other than "tutti" they must also be in that category. |
| Aldi.EmptySearchKeepsAll | src/pages/Aldi.tsx:52 | An empty search with "tutti" shows every product. |
| Aldi.ChangeFilter | src/pages/Aldi.tsx:56-73 | `onChange` keeps only fetched products, only those matching a non-empty search, and for a category other than "tutti" only that category. |
| Aldi.ChangeAgreesWithEffect | src/pages/Aldi.tsx:56-73 | In each of its four branches, `onChange` computes the same list as the effect. |
| Aldi.SearchIgnoresCase | src/pages/Aldi.tsx:48 | Lower-casing the search leaves the result unchanged. |
| Aldi.NameMatchesAt | src/pages/Aldi.tsx:48 | A name matches exactly when the lower-cased search occurs at some position of the lower-cased name. |
| Aldi.Paginate | src/pages/Aldi.tsx:75 | A page holds at most 10 products, namely the ones at `page*10` onward. A page past the end is empty. |
| Aldi.FirstPagesArePrefix | src/pages/Aldi.tsx:75 | The first n pages together are the first `n*10` products. |
| Aldi.PageFollowsPrefix | src/pages/Aldi.tsx:75 | Each page continues where the previous pages stop. |
| Aldi.PagesPartition | src/pages/Aldi.tsx:75 | Enough pages together show every product exactly once, in order. |
| Aldi.AldiPage.constructor | src/pages/Aldi.tsx:36-39 | The page starts with an empty search, "tutti", page 0 and the fetched products. |
| Aldi.AldiPage.Shown | src/pages/Aldi.tsx:75 | At most one page of products is shown. |
| Aldi.AldiPage.OnData | src/pages/Aldi.tsx:42-44 | New data replaces the list with all fetched products. |
| Aldi.AldiPage.OnFilterChange | src/pages/Aldi.tsx:46-54 | The list becomes the effect's filter. The page is reset only for "tutti". |
| Aldi.AldiPage.OnChange | src/pages/Aldi.tsx:56-73 | The list becomes the filter for the new category. The page is reset exactly when the search is empty. |
| Aldi.AldiPage.SelectCategory | src/pages/Aldi.tsx:100 | Choosing a category runs `onChange` and then stores the category. |
| Aldi.AldiPage.SetProduct | src/pages/Aldi.tsx:85-88 | Typing or clearing stores the search. Nothing else changes. |
| Aldi.AldiPage.ClearCategory | src/pages/Aldi.tsx:101 | The clear button sets the category to "tutti" only. |
| Aldi.AldiPage.SetPage | src/pages/Aldi.tsx:144 | A page change stores the new page only. |
| ExpandedRow.ColSpanCoversRow | src/components/dashboard/ExpandedExpenseRow.tsx:140-171 | The detail row's column span equals the number of cells in the main row, 7 for "all" and 6 otherwise. |
| ExpandedRow.SumPricesAppend | src/components/dashboard/ExpandedExpenseRow.tsx:93 | The price sum of a concatenation is the sum of its parts. |
| ExpandedRow.FormFilled | src/components/dashboard/ExpandedExpenseRow.tsx:92 | Definition of `newProduct.name && newProduct.quantity && newProduct.price`: a name, and a quantity and a price other than 0. |
| ExpandedRow.OverBudget | src/components/dashboard/ExpandedExpenseRow.tsx:93-95 | Definition of `newTotal > expense.amount`, `newTotal` being the products' prices plus the new price. |
| ExpandedRow.AcceptedStaysWithinAmount | src/components/dashboard/ExpandedExpenseRow.tsx:93-98 | A product that passes the check keeps the products' price sum within the expense amount. |
| ExpandedRow.BudgetBoundary | src/components/dashboard/ExpandedExpenseRow.tsx:95 | Against an amount of 50 with 30 already used, a price of 20 is accepted and 21 is refused, whatever the quantity. |
| ExpandedRow.KeyOf | src/components/dashboard/ExpandedExpenseRow.tsx:76 | The fetch key is the id, or "undefined" when there is none. |
| ExpandedRow.Fires | src/components/dashboard/ExpandedExpenseRow.tsx:76-77 | Definition of `expanded && expenseKey && !fetchedRef.current[expenseKey]`. |
| ExpandedRow.AfterRun | src/components/dashboard/ExpandedExpenseRow.tsx:77-79 | After the effect, a key counts as fetched exactly when it did before, or the effect fired for it. |
| ExpandedRow.FetchedKeysFresh | src/components/dashboard/ExpandedExpenseRow.tsx:77 | A key fetched in a run of effects is non-empty and was not fetched before. |
| ExpandedRow.FetchOncePerKey | src/components/dashboard/ExpandedExpenseRow.tsx:74-82 | Over any run of effects, each key is fetched at most once. |
| ExpandedRow.CollapsedFetchesNothing | src/components/dashboard/ExpandedExpenseRow.tsx:77 | While the row stays collapsed, nothing is fetched. |
| ExpandedRow.ExpandedExpenseRow.constructor | src/components/dashboard/ExpandedExpenseRow.tsx:65-74 | The row starts with no products, the form at name "", quantity 1 and price 0, all flags off and nothing fetched. |
| ExpandedRow.ExpandedExpenseRow.RunFetchEffect | src/components/dashboard/ExpandedExpenseRow.tsx:75-82 | The products query is sent exactly when the condition holds, and the key is then marked. |
| ExpandedRow.ExpandedExpenseRow.OnProductsData | src/components/dashboard/ExpandedExpenseRow.tsx:84-88 | Arrived products replace the list. Without data nothing changes. |
| ExpandedRow.ExpandedExpenseRow.HandleAddProduct | src/components/dashboard/ExpandedExpenseRow.tsx:90-112 | An incomplete form does nothing. Going over the amount opens the warning. Otherwise the add and a refetch are sent and the form is reset. |
| ExpandedRow.ExpandedExpenseRow.HandleShowAddProduct | src/components/dashboard/ExpandedExpenseRow.tsx:114-117 | The add-product form's visibility is flipped. |
| ExpandedRow.ExpandedExpenseRow.CloseSnackbar | src/components/dashboard/ExpandedExpenseRow.tsx:125-130 | Closing the warning hides it. |
| ExpandedRow.ExpandedExpenseRow.SetNewProduct | src/components/dashboard/ExpandedExpenseRow.tsx:207-229 | Editing the form stores the typed name, quantity and price. |

## Left out

- Dates and the clock. These are replaced by parameters:
  - `getDayKey` becomes `dayKey`.
  - `parseDateSafe`'s `Number`/`new Date` becomes `parseDate`, returning a year and month.
  - `new Date()` becomes the current month `now`.
  - `toLocaleString` month names become `shortMonth`.
  - Time zones and `toLocaleDateString` are not modelled.
- Floating point is not modelled: amounts are whole numbers. This leaves out `toFixed(2)` in the chart series, `parseFloat`/`Number` on the amount fields (which become `parseAmount`), and the final coverage percentage.
- Number parsing in the coverage merge: only ASCII digit strings are read as numbers, the empty one reading 0 as `Number('')` does. Whitespace, signs, decimals and the resulting `NaN` (and `Math.max` with `NaN`) are not modelled. The model skips a `DA:` line with such a field.
- `localeCompare` is modelled as code-point lexicographic order, with no locale collation.
- Rank.SortByRankSorted: sortedness rests on the code-point reading of `localeCompare`. A string rank holds no ASCII digit, so its first character sorts it before or after every number, and the comparator stays a consistent order. A locale collation (one that ignores punctuation, or a non-ASCII digit in an id) can break that, and then `Array.prototype.sort` gives no order guarantee. Permutation and stability do not depend on it.
- Rank.IdRank: `Number(lastDigits)` is a double, so a digit run above 2^53 loses precision and distinct long runs can rank equal. The model reads every digit run exactly.
- RunningBalance.WrittenMonotone: requires non-negative amounts. With negative amounts, running totals can fall.
- `Object.keys(byCard)` order: JavaScript lists integer-like keys first. The model visits cards in first-seen order. This only matters when two cards hold expenses with the same id.
- The `amount || 0` guards need no separate case: every transaction has an amount, and an amount of 0 gives the same sum.
- Unicode lower-casing: `ToLower` maps ASCII letters only.
- GraphQL and Apollo are modelled only as requests:
  - Queries, mutations and the incomes page's `refetch()` become `Request` values returned by the handlers, or data passed into the effect methods. The returned sequence gives the order in which they are sent.
  - What the server does with a request, caching, loading and error states are not modelled.
  - `handleDeleteIncome` only sends a request and refetches, so it is not a separate member.
- The loading/error guard of `renderedExpenseRows` is not modelled.
- The card-editor effects and handlers (credit and start date) on the Expenses and Incomes pages are not modelled. Only the card change clearing them is.
- `mergeMaps` copies `a` shallowly (line 35), so `mapA.set` also changes the first report's inner maps. The model treats maps as values. The merged result is the same because the first report is not read again.
- Inner-map iteration order in `mergeMaps` does not affect the per-line maximum, so it is not modelled.
- File I/O, `process.argv`, the usage exit, `mkdirSync`, `console.log` and `console.error` in the merge script are not modelled. `existsSync` becomes an `Option` content per report.
- `WriteRecord` builds one file's block as a string, which `Emit` then appends. The source appends piece by piece to `out`. The result text is the same.
- Rendering (JSX layout, styles, the snackbar timer, category menu items, the `crypto.randomUUID` keys) is not modelled. Only the column counts and row structure are.
- Prototype keys such as `__proto__` in `Record` objects are not modelled. The model's maps have no inherited keys.
- The Cypress and vitest tests, the other pages and components, the GraphQL schema and the CSV import are not part of this model.
