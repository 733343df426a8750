# Budget tracker: the transaction collection, modelled in Dafny

The budget tracker is a two-page browser application. It keeps one collection
of income and expense records. Each record has an id, a label, a signed amount
in whole rupiah, an ISO date and a category.

- The **entry page** (`script.js`) adds new records and edits existing ones
  through a form. The form has an income/expense mode, and each mode has its own
  category list. The page also opens a record that the history page handed over
  for editing, and shows a dashboard with the balance, the income total and the
  expense total.
- The **history page** (`history.js`) filters the collection by a search term
  and a category. It shows the filtered records newest first, together with the
  balance of the whole collection and a chart of expense totals per category.
  It builds the category filter's option list and deletes records.

The model lifts that logic out of the event handlers. It has four modules.

- `Ledger` (ledger.dfy) holds what both pages share:
  - the `Transaction` record;
  - lookup by id (`FindIndex`);
  - order-preserving filtering (`Keep`);
  - sums under a `Measure` (all amounts, income only, expense magnitudes, the
    expense magnitudes of one category), with their algebra: the balance split,
    concatenation and invariance under permutation.
- `Text` (text.dfy) holds `trim` with the ECMAScript white-space set, ASCII
  lower-casing, substring search and the lexicographic order of ISO dates.
- `EntryPage` (entry_form.dfy) models the entry page:
  - the category table;
  - the submit guard;
  - sign by mode;
  - the pure `Save` and `ApplyEdit`;
  - the dashboard;
  - the class `EntryForm`, whose fields are the page's state (the collection,
    the pending-edit pointer, `isEditing`, `editID`, the mode, the category
    options, the form's values and the dashboard figures). Its methods are
    `SetFormMode`, `ResetForm`, `LoadForEdit` and `Submit`, and its constructor
    is the page's start-up.
- `History` (history.dfy) models the history page:
  - the filter;
  - an in-place insertion sort on an array, newest date first;
  - the expense chart as an association list in key-insertion order;
  - the distinct category list, with a loop that builds it as a `Set` does;
  - `RemoveId`;
  - the class `HistoryPage`, with start-up, `PopulateCategoryFilter`, `Render`
    and `Delete`.

The model makes these choices:

- **Dates** are the `YYYY-MM-DD` strings that a date input produces. They are
  compared lexicographically, which for that format is the chronological order.
- **Amounts** are integers, because the currency has no fraction digits. The
  amount input becomes an integer, and 0 stands for every falsy conversion:
  empty, not a number, or zero.
- **Inputs from outside** become parameters:
  - the record id `Date.now()` would give (`freshId`);
  - today's date;
  - the pending-edit pointer read from storage;
  - the answer to the delete confirmation (`confirmed`);
  - the values of the form's inputs at submit time.
- **Storage** reads and writes the whole collection, so it is modelled as the
  `transactions` field.

## Model

| member | source | states |
|---|---|---|
| Ledger.FindIndex | script.js:104 | `findIndex` by id: it finds the first record carrying the id, no record before it carries the id, and it finds none exactly when no record carries the id |
| Ledger.Keep | history.js:21-25 | `filter`: the result is a subsequence of the input; a record is in it iff it is in the input and passes the test; each passing record keeps its multiplicity |
| Ledger.KeepAll | history.js:21-25 | a filter that every record passes returns the collection unchanged |
| Ledger.BalanceSplits | script.js:42-45 | the sum of all amounts equals the income total minus the expense total |
| Ledger.SumNonNegative | script.js:44-45 | the income total and the expense magnitude total are never negative |
| Ledger.SumConcat | history.js:67-70 | a sum over a concatenation is the sum of the two sums |
| Ledger.SumRemoveAt | history.js:67-70 | removing one record from a sequence removes exactly its weight from the sum |
| Ledger.MatchLast | history.js:38 | the last record of a sequence occurs in any permutation of it, and what is left of the two is again a permutation |
| Ledger.SumPermutation | history.js:38 | any reordering of the records leaves every sum unchanged, so sorting cannot change a total |
| Ledger.SumOfAbsentCategory | history.js:65-68 | a category with no expense record sums to zero |
| Ledger.HasIdUncons | script.js:104 | an id occurs in a non-empty collection iff the first record or the rest carries it |
| Ledger.UniqueIdsUncons | script.js:109 | with unique ids, the rest of the collection has unique ids and does not carry the first record's id |
| Text.Trim | script.js:86 | `trim` returns a slice of its input with only white space outside it; the slice neither starts nor ends with white space; it is empty iff the input is all white space |
| Text.TrimStart | script.js:86 | strips leading white space: the result is a suffix of the input and everything before it is white space |
| Text.TrimEnd | script.js:86 | strips trailing white space: the result is a prefix of the input and everything after it is white space |
| Text.Lower | history.js:18-22 | `toLowerCase`: the result spells the input up to letter case, character by character, and holds no upper-case letter |
| Text.LowerIgnoresCase | history.js:18-22 | texts that are equal up to letter case lower to the same text |
| Text.LowerIdempotent | history.js:18-22 | lowering a lowered text changes nothing |
| Text.ContainsIffSlice | history.js:22 | `includes` holds iff the needle occurs as a contiguous slice of the label |
| Text.ContainsEmpty | history.js:22 | the empty search term occurs in every label |
| Text.LexLeReflexive | history.js:38 | the date order is reflexive |
| Text.LexLeTotal | history.js:38 | any two dates are comparable |
| Text.LexLeTransitive | history.js:38 | the date order is transitive |
| EntryPage.ApplyEdit | script.js:103-107 | the edit keeps the length; the first record carrying the id takes the submitted label, signed amount, date and category, and keeps its id and position; every other record is unchanged; if no record carries the id, the collection is unchanged |
| EntryPage.EditKeepsIdsUnique | script.js:103-107 | an edit keeps unique ids unique |
| EntryPage.AppendKeepsIdsUnique | script.js:108-110 | appending a record whose id is not in use keeps the ids unique |
| EntryPage.Save | script.js:96-110 | with no edit in progress, the collection grows by one: the earlier records are untouched and the new last record carries `freshId`, the trimmed label, the amount signed by mode, the date and the category. With an edit in progress, it is `ApplyEdit`. Unique ids stay unique |
| EntryPage.Dashboard | script.js:41-50 | the balance equals income minus expense, and both totals are non-negative |
| EntryPage.EditRoundTrip | script.js:118-139 | for a record with a non-zero amount and a trimmed label, whose category is in the list of the mode its sign selects, opening it for editing and submitting unchanged gives the same record back |
| EntryPage.EditBlanksForeignCategory | script.js:131-135 | when the category is not in the list of the mode the sign selects, opening the record and submitting unchanged stores the empty category |
| EntryPage.NegatedExpenseIsForeign | script.js:86-110 | such records arise: a complete form with a negative amount and an expense-only category, saved in expense mode, stores a positive amount (income mode when opened) whose category the income list does not offer |
| EntryPage.EntryForm.constructor | script.js:141-147 | start-up: the dashboard matches the collection. If the pending pointer names a stored record, the form is in edit mode on it, with the mode inferred from the sign; otherwise it is a blank income form for today with no edit state |
| EntryPage.EntryForm.SetFormMode | script.js:52-64 | the category options are exactly the mode's list, in order; the select shows the first option; nothing else changes |
| EntryPage.EntryForm.ResetForm | script.js:73-82 | the edit state is cleared, the pending pointer is removed, the mode is income, the form is blank with today's date, and the collection is untouched |
| EntryPage.EntryForm.LoadForEdit | script.js:118-139 | no pointer: nothing changes. A pointer that resolves to no record is cleared and the edit state stays as it was. A pointer that resolves sets `isEditing` and `editID`; the mode is income iff the amount is positive; the form shows the label, the magnitude of the amount, the date and the category. The collection never changes |
| EntryPage.EntryForm.Store | script.js:103-113 | the collection becomes `Save` of the old collection under the current edit state and mode, and the dashboard is recomputed; the edit state, the mode and the form stay as they are |
| EntryPage.EntryForm.Submit | script.js:84-116 | it saves iff the trimmed label is non-empty, the amount is non-zero and the date is non-empty. An incomplete form changes nothing at all. A save sets the collection to `Save` of the old state and recomputes the dashboard (`Store`); it then clears the edit state and the pointer and leaves a blank income form |
| History.Filter | history.js:17-25 | a record survives iff its lower-cased label contains the lower-cased term and the category filter is "all" or equals its category; the result is an order-preserving subsequence with multiplicities kept |
| History.MatchesIgnoresCase | history.js:18-24 | the filter is case-insensitive: changing the letter case of the label or of the search term does not change whether a record matches |
| History.FilterOffKeepsAll | history.js:21-25 | with an empty term and the filter on "all", every record survives, in order |
| History.RemoveId | history.js:125 | every record carrying the id is gone; every other record keeps its multiplicity; the result is a subsequence, so the remaining records keep their relative order |
| History.RemoveIdRemovesOne | history.js:125 | with unique ids, deleting a present id shortens the collection by exactly one; deleting an absent id changes nothing |
| History.RemoveIdSum | history.js:99-100 | with unique ids, deleting a record takes exactly its amount out of every sum, including the balance |
| History.AdjacentDescending | history.js:38 | if each date is at most the one before it, the whole list is in descending date order |
| History.Swap | history.js:38 | exchanges two neighbouring records and keeps the multiset |
| History.InsertLeft | history.js:38 | one insertion pass: the prefix up to `i` becomes date-descending, the records after `i` stay where they were, and the contents stay a permutation |
| History.SortByDateDesc | history.js:38 | sorts the array in place: newest first, and a permutation of what was there |
| History.AddExpense | history.js:68 | one fold step: the entry of the category grows by the amount and the other entries are untouched; if there is no such entry, a new one is added at the end |
| History.AddExpenseLabels | history.js:68 | after a step, the labels are the old labels plus the category |
| History.AddExpenseDistinct | history.js:68 | after a step, every label still occurs once |
| History.AddExpenseTotal | history.js:68 | a step adds the amount to the chart's total |
| History.ExpenseData | history.js:65-70 | the chart summarizes its records. It has one entry per category that has an expense, each listed once, each carrying the positive sum of that category's expense magnitudes; income never contributes; the entries add up to the expense total |
| History.IncomeStep | history.js:66 | a record that is not an expense leaves the chart's summary valid |
| History.ExpenseStep | history.js:67-69 | an expense record keeps the chart a valid summary after its step |
| History.ExpenseStepTotals | history.js:67-69 | after an expense step, each entry's total still equals its category's expense sum and is positive |
| History.SummarizesPermutation | history.js:28-29 | a chart that summarizes the sorted list also summarizes the filtered records in stored order |
| History.DistinctCategories | history.js:105 | the option list has no duplicates, and a category is in it iff some record has it |
| History.DistinctCategoriesInFirstOccurrenceOrder | history.js:105 | the option list is in the order in which the categories first occur |
| History.CollectCategories | history.js:105-111 | the loop over the records with a seen-set yields exactly the distinct category list |
| History.SortedCopy | history.js:32-38 | the list is a permutation of the filtered records with dates descending |
| History.HistoryPage.constructor | history.js:132-134 | start-up: the collection is the stored one, and the options are its distinct categories |
| History.HistoryPage.PopulateCategoryFilter | history.js:104-112 | appends the distinct categories of the whole collection to the options; the collection is untouched |
| History.HistoryPage.Render | history.js:17-30 | the balance is the sum over the whole collection, whatever the filters. The list is the filtered records, newest first. The chart is folded from the sorted list and summarizes the filtered records. The stored collection is only read, so its order is not changed |
| History.HistoryPage.Delete | history.js:122-129 | if confirmed, the collection becomes `RemoveId` of the old one and the page is shown again for the current filters; otherwise nothing changes. The filter options are not rebuilt |

## Left out

- DOM access, HTML templates, class toggles, button labels and money and date formatting. These are presentation only.
- `localStorage` and JSON (de)serialisation. The collection is the class field, and the pending-edit pointer is an `Option<int>` field.
- `Date.now()` becomes the `freshId` parameter. Uniqueness of ids is proved only when that id is not yet in use.
- `new Date()` for today's date becomes the `today` parameter.
- The notification banner and its timer are left out.
- The confirmation dialog is the boolean `confirmed`.
- Navigation to the entry page is left out. So is the write of the pending-edit pointer by the edit button (history.js:115-119), which is a storage write plus navigation.
- Chart.js construction and destruction are foreign code. The model keeps the data fed to the chart, an association list in key-insertion order.
- JavaScript orders integer-like object keys numerically before the other keys. The chart model assumes category names are not integer-like.
- History.ExpenseData: it assumes category names are not property names of `Object.prototype`. The chart object is a plain `{}`, and the model sums every name correctly. In the source, a category such as "constructor" or "toString" would start from the inherited function rather than from 0 and concatenate into a string. An assignment to "__proto__" is ignored, so that category drops out of the chart.
- Whether the page markup forbids negative amounts is not known here, because the markup is not part of this model. The model accepts any non-zero amount, as the script does (see `NegatedExpenseIsForeign`).
- Numbers are integers. Floating-point amounts and the string-to-number coercion are not modelled: one integer input stands for the converted value, and 0 stands for every falsy result.
- Invalid dates are not modelled. The comparator would return `NaN` on them, and the resulting sort order is engine-defined.
- SortByDateDesc: stability is not stated. ECMAScript 2019 and later require `sort` to be stable, so records with equal dates keep their filtered (stored) order in the list, and that order also fixes the chart's key order. The insertion sort only moves a record past strictly older ones, so it keeps ties in order, but the contracts do not state this, because that would mean tracking every record's original position through each swap. The contracts therefore leave the order among equal dates open.
- Text.Lower: lowers ASCII letters only. Full Unicode case mapping is locale-independent but table-driven, and is not part of this model.
- EntryPage.EntryForm.LoadForEdit: assigning a category that the select does not offer leaves the select's value "". `Prefill` models this from HTML semantics, not from code in the repository.
- The history page's fixed "all" option comes from the page markup. `filterOptions` holds only the options appended after it.
- Races between tabs sharing storage are not modelled. Each page works on its own copy of the collection.
