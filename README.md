# Restaurant expense tracker — a Dafny model of its core

The tracker is a single-page application in which restaurant staff record
purchases (a date, a department, a category, the item, the amount, the
supplier, the payment method and optional notes). The application then
shows summary figures, a filterable list with per-department subtotals and
a spreadsheet export over a date range. This project models the logic
behind those screens:

- `types.dfy` (module `Types`): the expense record, the three closed
  enumerations and their string literals, and the calendar values that
  stand for JavaScript `Date`s.
- `expense_form.dfy` (module `ExpenseForm`): the department→category table,
  the default-category rule, the form's initial state, and the submit step
  that hands a draft record to the store and resets the form.
- `dashboard.dfy` (module `Dashboard`): the store as a class holding the
  newest-first list, with the submit handler that prepends a record under a
  fresh identifier, and the four summary figures (total, this month's
  total, active departments, average transaction).
- `reductions.dfy` (module `Reductions`): the two reductions the dashboard
  and the list share, the sum of the amounts and the set of departments
  present, with their algebra.
- `expense_list.dfy` (module `ExpenseList`): the department filter and the
  per-department subtotals, computed by the same single pass as the source.
- `export_data.dfy` (module `ExportData`): the date-range selection, the
  conversion of each record into a spreadsheet row, and the file name.
- `dates.dfy` (module `Dates`): the date-fns tokens the components use
  (`MM`, `dd`, `yyyy`) as zero-padded decimal fields, `parse` to local
  midnight, and `setHours`.
- `seqs.dfy` (module `Seqs`): `Array.prototype.filter`, and "a subsequence
  in the same order", which states what a filter keeps.

Modelling choices:

- Amounts are exact `real`s.
- A `Date` is its local calendar date plus milliseconds since local
  midnight. The month is the zero-based index `getMonth()` returns.
- Identifiers come from a counter in the store, standing in for
  `crypto.randomUUID()`. The only property the model relies on is that
  each new identifier is fresh.

The model keeps these quirks of the code:

- The department cell uses `replace('_', ' ')` with a string pattern,
  which replaces only the first underscore. So `front_of_house` is
  exported as `front of_house`, not `front of house`.
- The end of the export range is `setHours(23, 59, 59)`, which leaves the
  milliseconds at zero. A record at 23:59:59.001 on the end day is
  therefore not exported.
- The month total compares the month index only. A record from the same
  month of another year counts.

## Model

| member | source | states |
|---|---|---|
| Types.AllDepartments | src/types/index.ts:13-19 | the department union has exactly six values, each listed once |
| Types.AllCategories | src/types/index.ts:21-31 | the category union has exactly ten values, each listed once |
| Types.AllPaymentMethods | src/types/index.ts:33-38 | the payment-method union has exactly five values, each listed once |
| Types.ParseDepartment | src/types/index.ts:13-19 | a string read as a department is that department's literal; the `<select>` offers only these literals and `as Department` checks nothing, so any other string gives no department |
| Types.ParseCategory | src/types/index.ts:21-31 | a string read as a category is that category's literal (`maintenance` for Repairs) |
| Types.ParsePaymentMethod | src/types/index.ts:33-38 | a string read as a payment method is that method's literal |
| Types.NamesRoundTrip | src/types/index.ts:13-38 | every literal reads back as its own value, so the literals of each union are pairwise distinct |
| Types.WithId | src/components/Dashboard.tsx:12-15 | `{ ...expense, id }` carries the given identifier and every submitted field unchanged |
| Types.WithIdDraftOf | src/types/index.ts:1-11 | a record is its identifier plus its other fields: splitting and rejoining gives it back |
| Seqs.Filter | src/components/ExpenseList.tsx:15 | `filter` keeps exactly the elements satisfying the predicate and never lengthens the list |
| Seqs.FilterAppend | src/components/ExpenseList.tsx:15 | filtering a concatenation is the concatenation of the filtered parts |
| Seqs.FilterAll | src/components/ExpenseList.tsx:14-15 | a predicate true of every element returns the input unchanged |
| Seqs.FilterNone | src/components/Dashboard.tsx:20-22 | a predicate true of no element returns the empty list |
| Seqs.FilterCongruent | src/components/ExportData.tsx:20-22 | predicates that agree on the elements give the same filtered list |
| Seqs.FilterIndices | src/components/ExpenseList.tsx:15 | the kept positions are increasing, all satisfy the predicate, and every matching position is among them |
| Seqs.FilterEmbedding | src/components/ExpenseList.tsx:15 | the filtered list is the input at exactly the kept positions, in their original order |
| Seqs.FilterIsSubsequence | src/components/ExpenseList.tsx:15 | the filtered list is an order-preserving subsequence of the input |
| Dates.Pad | src/components/ExportData.tsx:25 | a numeric token prints only digits, at least `width` of them and exactly `width` when the number fits; a wider number gets no leading zero |
| Dates.PadValue | src/components/ExportData.tsx:25 | reading a padded field back as decimal gives the number: no digit is lost and leading zeros add nothing |
| Dates.PadField | src/components/ExportData.tsx:40 | a number below `10^width` prints as exactly `width` digits that read back as it |
| Dates.PadWidth | src/components/ExportData.tsx:40 | a field is exactly `width` digits precisely when the number is below `10^width` |
| Dates.PadInjective | src/components/ExportData.tsx:40 | two numbers printed alike in the same field are equal |
| Dates.FormatMonthDayYear | src/components/ExportData.tsx:25 | `MM/dd/yyyy` is the one-based month and the day as two digits each and the year as at least four digits, between two slashes, each field reading back as its number; ten characters exactly for a four-digit year and no leading zero on a longer one |
| Dates.FormatIso | src/components/ExpenseForm.tsx:21 | `yyyy-MM-dd` is the year as at least four digits, then the one-based month and the day as two digits each, dash-separated at fixed places from the end, each field reading back as its number; ten characters exactly for a four-digit year and no leading zero on a longer one |
| Dates.FormatCompact | src/components/ExportData.tsx:40 | `yyyyMMdd` is all digits: the year, then the one-based month and the day as two digits each, each reading back as its number; eight characters exactly for a four-digit year and no leading zero on a longer one |
| Dates.CompactInjective | src/components/ExportData.tsx:40 | `yyyyMMdd` determines the date |
| Dates.StartOfDay | src/components/ExportData.tsx:16-17 | `parse(s, 'yyyy-MM-dd', …)` gives the day's earliest instant, on that same day |
| Dates.SetHours | src/components/ExportData.tsx:18 | `setHours(h, m, s)` keeps the day, sets the clock to h:m:s and keeps the milliseconds |
| ExpenseForm.Categories | src/components/ExpenseForm.tsx:10-17 | every department offers a non-empty list of categories with no repeats, always including `other` |
| ExpenseForm.DefaultCategory | src/components/ExpenseForm.tsx:35 | the category chosen on a department change is one that department offers |
| ExpenseForm.DefaultCategories | src/components/ExpenseForm.tsx:10-17 | the defaults are ingredients, beverages, ingredients, equipment, supplies and marketing for the six departments |
| ExpenseForm.InitialForm | src/components/ExpenseForm.tsx:20-29 | the initial form's date is today as `yyyy-MM-dd`; it is kitchen with its default category, so the category is one kitchen offers, and its text fields are empty |
| ExpenseForm.HandleDepartmentChange | src/components/ExpenseForm.tsx:31-37 | the department changes, the category becomes that department's default, so the pair is consistent, and no other field changes |
| ExpenseForm.HandleCategoryChange | src/components/ExpenseForm.tsx:96-106 | picking one of the offered categories keeps the form consistent and changes nothing else |
| ExpenseForm.HandleSubmit | src/components/ExpenseForm.tsx:39-56 | the draft carries every form field, plus the converted date and amount and the notes as given; a consistent form gives a consistent draft; the form returns to its initial state |
| Reductions.TotalAppend | src/components/Dashboard.tsx:19 | the total of two lists together is the sum of their totals |
| Reductions.TotalBounds | src/components/Dashboard.tsx:19 | amounts between `lo` and `hi` give a total between `n*lo` and `n*hi` |
| Reductions.TotalNonNegative | src/components/Dashboard.tsx:19 | non-negative amounts give a non-negative total |
| Reductions.FilteredTotalAtMostTotal | src/components/Dashboard.tsx:20-22 | with non-negative amounts, any filtered total lies between 0 and the full total |
| Dashboard.TotalExpenses | src/components/Dashboard.tsx:19 | `reduce` from 0 gives 0 for no records and the amount for one record, and is non-negative for non-negative amounts |
| Dashboard.MonthlyExpenses | src/components/Dashboard.tsx:20-22 | with non-negative amounts the month total lies between 0 and the total; it is the total when every record has the current month index and 0 when none has |
| Reductions.FilteredTotalExtremes | src/components/Dashboard.tsx:20-22 | a filtered total is between 0 and the total for non-negative amounts, the total when the predicate holds of every record, 0 when of none |
| Dashboard.MonthlyExpensesPrepend | src/components/Dashboard.tsx:20-22 | a record adds its amount to the month total exactly when its month index equals the current one, whatever its year |
| Reductions.DepartmentsOfPrepend | src/components/Dashboard.tsx:24 | the department set of a list with a record in front adds that record's department |
| Reductions.DepartmentsOfSize | src/components/Dashboard.tsx:24 | there are no more distinct departments than records |
| Reductions.AtMostSixDepartments | src/components/Dashboard.tsx:24 | any set of departments has at most six members |
| Dashboard.DepartmentCount | src/components/Dashboard.tsx:24 | the number of distinct departments present is at most six and at most the record count, 0 exactly for no records, and 1 exactly when there are records and all share one department |
| Reductions.SingleDepartment | src/components/Dashboard.tsx:24 | the department set has one member exactly when there are records and all share one department |
| Dashboard.DepartmentCountPrepend | src/components/Dashboard.tsx:24 | a new record raises the count by one exactly when its department was absent |
| Dashboard.AverageTransaction | src/components/Dashboard.tsx:96 | the average is 0 for no records and otherwise times the count gives the total |
| Dashboard.AverageBetweenBounds | src/components/Dashboard.tsx:96 | the average lies between any lower and upper bound of the amounts |
| Dashboard.QuotientBetween | src/components/Dashboard.tsx:96 | a total between `n*lo` and `n*hi` divided by `n > 0` lies between `lo` and `hi` |
| Dashboard.Store.HandleExpenseSubmit | src/components/Dashboard.tsx:11-17 | the submitted fields with an identifier not already in use go in front of the unchanged old list, and identifiers stay distinct |
| Dashboard.Store.constructor | src/components/Dashboard.tsx:9 | the store starts empty with distinct identifiers |
| ExpenseList.FilteredExpenses | src/components/ExpenseList.tsx:13-16 | `all` shows the list itself; a department shows exactly that department's records, never more than the list |
| ExpenseList.FilteredExpensesPositions | src/components/ExpenseList.tsx:13-16 | a department filter keeps exactly the positions holding that department's records, in order |
| ExpenseList.FilteredExpensesInOrder | src/components/ExpenseList.tsx:13-16 | whatever the filter, the shown list is an order-preserving subsequence of the store |
| ExpenseList.SubtotalAppend | src/components/ExpenseList.tsx:18-23 | a department's subtotal over two lists is the sum of the subtotals |
| ExpenseList.SubtotalStep | src/components/ExpenseList.tsx:20 | one more record adds its amount to its own department's subtotal and nothing to the others |
| ExpenseList.SubtotalsSumToTotal | src/components/ExpenseList.tsx:18-23 | the six department subtotals add up to the grand total |
| ExpenseList.DepartmentTotals | src/components/ExpenseList.tsx:18-23 | the map's keys are exactly the departments present and each value is that department's subtotal; the map has one entry per distinct department present and its values add up to the total |
| ExpenseList.TotalsStep | src/components/ExpenseList.tsx:20 | `acc[d] = (acc[d] \|\| 0) + amount` extends the key set by the record's department and keeps every entry equal to its subtotal |
| ExpenseList.TotalsMapFacts | src/components/ExpenseList.tsx:18-23 | a map whose keys are the departments present and whose entries are the subtotals has as many entries as there are departments present and the total as its sum |
| Reductions.DepartmentsOfAppend | src/components/ExpenseList.tsx:19-21 | the departments of a list with a record added at the end gain that record's department |
| ExportData.IndexOf | src/components/ExportData.tsx:26 | the position of the first occurrence, or the length when there is none |
| ExportData.ReplaceFirst | src/components/ExportData.tsx:26 | `replace` with a one-character pattern keeps the length |
| ExportData.DepartmentCell | src/components/ExportData.tsx:26 | the department cell is `front of_house` for front of house and the department's literal for every other department |
| ExportData.DepartmentNameReplaced | src/components/ExportData.tsx:26 | replacing the first underscore changes only `front_of_house`, into `front of_house` |
| ExportData.ReplaceFirstMeaning | src/components/ExportData.tsx:26 | position by position, the first occurrence becomes the replacement and every other character stays |
| ExportData.ReplaceFirstSplit | src/components/ExportData.tsx:26 | only the first occurrence is replaced; later ones are kept |
| ExportData.ReplaceFirstAbsent | src/components/ExportData.tsx:26 | a string without the pattern is left as it is |
| ExportData.FrontOfHouseCell | src/components/ExportData.tsx:26 | `replace('_', ' ')` on `front_of_house` gives `front of_house`: the second underscore stays |
| ExportData.NotesCell | src/components/ExportData.tsx:32 | absent notes give an empty cell; present notes, empty or not, appear verbatim |
| ExportData.ToRow | src/components/ExportData.tsx:24-33 | the date cell is `MM/dd/yyyy` reading back as the record's one-based month, day and year, ten characters exactly for a four-digit year and with no leading zero on a longer one; the department has its first underscore as a space; category, item, amount, supplier and payment method are the record's; notes verbatim or empty |
| ExportData.WithinInterval | src/components/ExportData.tsx:21 | for a start not after the end, an instant is inside exactly when it is neither before the start nor after the end; both ends are inside |
| ExportData.Selected | src/components/ExportData.tsx:20-22 | exactly the records dated from the start day through 23:59:59.000 of the end day are selected |
| ExportData.RangeBoundaries | src/components/ExportData.tsx:16-21 | midnight of the start day and 23:59:59.000 of the end day are in range; the day before, the day after and one millisecond later on the end day are not |
| ExportData.SelectedInOrder | src/components/ExportData.tsx:20-22 | the selected records keep their store order |
| ExportData.WindowIsExportRange | src/components/ExportData.tsx:16-21 | for a start day not after the end day, the interval from `parse` and `setHours(23, 59, 59)` contains an instant exactly when it is in the calendar range |
| ExportData.FileName | src/components/ExportData.tsx:40 | for any years, the name is `expenses_`, then `yyyyMMdd` of the start, `_to_`, `yyyyMMdd` of the end and `.xlsx`, each piece at the position the start's length fixes; 34 characters exactly when both years have four digits |
| ExportData.FileNameDeterminesRange | src/components/ExportData.tsx:40 | different ranges get different file names, whatever the years' lengths |
| ExportData.HandleExport | src/components/ExportData.tsx:15-42 | for a start day not after the end day: the key order of every row object is the eight columns; there is one row per selected record, in store order, each that record's row; the file name is built from the range |

## Left out

- The JSX rendering, styling, icons and React state plumbing are not modelled. State updates are modelled as the values or the store object they produce.
- Writing the workbook (`json_to_sheet`, `book_new`, `book_append_sheet`, `writeFile`) and the browser download are left out. The export stops at the rows, the key order every row object carries, and the file name handed to the spreadsheet library, which takes the sheet's header from the keys of the row objects.
- `new Date()` (the clock) is a parameter: `today` for the form and `now` for the month total.
- `crypto.randomUUID()` is modelled as a counter. Only the freshness of each identifier is relied on.
- `new Date(formData.date)` and `Number(formData.amount)` in the submit handler are parameters. Their results depend on the JavaScript runtime (UTC parsing of ISO dates, `NaN` for bad input).
- The internals of date-fns `parse`/`format` are left out. So are time zones and the `MMM d, yyyy` display format of the list.
- Floating-point arithmetic and `toFixed(2)` are left out. Amounts are exact reals, so the sums and the average are exact.
- The model checks only that a calendar date's day is between 1 and 31, not that it exists in its month (31 February is accepted). Years before 1 are not modelled.
- ExportData.HandleExport: requires the start day on or before the end day. For a start after the end, `isWithinInterval` throws or reorders the bounds, depending on the date-fns version, so that case is left unspecified. Empty or malformed date inputs are not modelled either: `parse` then yields an Invalid Date, on which `format` and `isWithinInterval` throw. The parameters are always valid calendar dates. With no selected records the source hands the library an empty array, so nothing carries the header and the sheet has none; the model's `columns` is only the key order of rows that exist.
- ExportData.WithinInterval: requires the start not after the end, for the same reason.
- The category `<select>` offers only the categories of the current department. ExpenseForm.HandleCategoryChange therefore requires that choice. Other values cannot reach it from the page.
- `src/components/TaskForm.tsx` is not part of this model. Nothing in the application uses it.
