# Finances-Tracker core, modelled in Dafny

Finances-Tracker is a macOS personal-finance application. Its logic outside the
Cocoa views is modelled here:

- **`Transactions`** models the transaction record (`TransactionData`) and its
  five attribute keys. It also gives the key-value view of a persisted
  transaction object.
- **`Filter`** models `FilterData`: the option strings per field and the
  predicate text `createPredicateForTransactionsFromFilterOptions` builds. It
  has two layers:
  - `CreatePredicate` follows the source step by step, appending a format
    fragment and its arguments per option;
  - `Clauses` lists the same conditions as data, `Render` turns a list of
    conditions into predicate text, and `Matches` gives each condition its
    meaning on a persisted transaction.
- **`FilterProperties`** proves the connections:
  - the builder renders the condition list;
  - when the result is nil;
  - clause order and the owner clause;
  - the exact text shape (one `" AND "` between neighbours, never leading);
  - the `%K`/`%@` placeholders line up with the argument array;
  - a match means every per-field rule holds;
  - a few worked filters.
- **`ChartData`** models `TransactionsChartData`: conversion of persisted
  objects to records, the grand total, and the per-category subtotals.
- **`Categories`** models `CategoryData`: the default and custom category lists,
  `addCategory`, and the index-set deletion `deleteCategories`.
- **`TransactionList`** models the list logic of `ViewController`:
  - the eight sort comparators and the sort-descriptor dispatch;
  - the field-by-field diff of `editTransaction`;
  - the owner-stamped `addNewTransaction`.
- **`TransactionDetails`** models the add/edit form of
  `TransactionDetailsViewController` as a state machine: the validation gate,
  the callback dispatch, and the default and specific field values.

Representation choices:

- Dates are integer timestamps and amounts are integer cents.
- Filter options stay raw strings, because the source switches on strings.
- `CONTAINS[cd]` is containment of a non-empty search text after ASCII
  lower-casing of both sides; an empty text matches nothing.
- `String.compare` is lexicographic order on character codes.
- Whether a Core Data save succeeds is not decided by the program, so it is a
  boolean input.
- The current date is an input `now`.

## Model

| member | source | states |
|---|---|---|
| Transactions.ParseAttribute | Finances-Tracker/Finances-Tracker/TransactionData.swift:21-28 | a raw string parses only to the key whose raw value it is |
| Transactions.ParseRawValue | Finances-Tracker/Finances-Tracker/TransactionData.swift:21-28 | parsing a key's raw value gives that key back, so the raw strings identify the keys |
| Transactions.AttributesAreFiveDistinctKeys | Finances-Tracker/Finances-Tracker/TransactionData.swift:21-28 | there are exactly five keys (date, category, amount, vendor, owner), every key is listed, and their raw strings are pairwise different |
| Transactions.ValueForKey | Finances-Tracker/Finances-Tracker/TransactionsChartData.swift:39-42 | the date key and only the date key reads a date; the amount key and only the amount key reads an amount |
| Transactions.RecordFromKeys | Finances-Tracker/Finances-Tracker/TransactionsChartData.swift:39-44 | reading the four record keys of a persisted object rebuilds its record; the owner lives only on the persisted object |
| Transactions.SetValue | Finances-Tracker/Finances-Tracker/ViewController.swift:220-226 | writing a key makes it read the new value and leaves the other four keys as they were |
| Transactions.SameKeysSameObject | Finances-Tracker/Finances-Tracker/ViewController.swift:220-226 | in the value representation of persisted objects, an object is determined by what its five keys read, so a run of key writes is pinned down by the values read back |
| Filter.DefaultFilter | Finances-Tracker/Finances-Tracker/FilterData.swift:62-82 | the argument-less filter sets no option that adds a condition |
| FilterProperties.CreatePredicateRendersClauses | Finances-Tracker/Finances-Tracker/FilterData.swift:101-262 | the step-by-step builder returns exactly the rendering of the condition list, and nil exactly when there is no field condition |
| FilterProperties.ClausesPresentIffActive | Finances-Tracker/Finances-Tracker/FilterData.swift:234-238 | a condition list exists if and only if some option names a case that adds a condition |
| FilterProperties.InactiveFilterGivesNil | Finances-Tracker/Finances-Tracker/FilterData.swift:107-238 | when every option is `none` or names no case, the result is nil whatever the owner |
| FilterProperties.UnrecognisedOptionActsAsNone | Finances-Tracker/Finances-Tracker/FilterData.swift:136-138 | replacing any one option by a string that names no case gives the same result as `none` (also lines 162-164, 203-205, 229-231) |
| FilterProperties.ClauseOrderAndOwner | Finances-Tracker/Finances-Tracker/FilterData.swift:107-247 | conditions come in the order date, category, amount, vendor; the owner condition is present if and only if the owner is non-empty, and then it is last and the only owner condition |
| FilterProperties.MatchesMeansFilterRules | Finances-Tracker/Finances-Tracker/FilterData.swift:107-247 | a transaction matches if and only if some option is active and it meets every field rule (before is `<=` start, after is `>=` start, between is inclusive on both ends, `equals` is exact, `contains` is folded substring of a non-empty text, amount between is inclusive) and belongs to the owner when one is given |
| FilterProperties.MatchesOnlyOwner | Finances-Tracker/Finances-Tracker/FilterData.swift:241-247 | with a non-empty owner, only that owner's transactions match |
| FilterProperties.Fetch | Finances-Tracker/Finances-Tracker/FilterData.swift:98-101 | evaluating a condition list over a list of transactions, as a store fetch with the built predicate does, keeps exactly the transactions that meet every condition, each as often as it occurs |
| FilterProperties.RenderIsJoined | Finances-Tracker/Finances-Tracker/FilterData.swift:113-247 | the format of a rendered condition list is the fragments joined front to back with one `" AND "` between neighbours |
| FilterProperties.PredicateTextShape | Finances-Tracker/Finances-Tracker/FilterData.swift:113-247 | a built format is the joined fragments; it starts with `%K` and so never with `" AND "` |
| FilterProperties.RenderArguments | Finances-Tracker/Finances-Tracker/FilterData.swift:113-247 | the argument array of a rendered list is each condition's key followed by its one or two values, condition after condition |
| FilterProperties.PlaceholdersMatchArguments | Finances-Tracker/Finances-Tracker/FilterData.swift:113-259 | in a built predicate each `%K` placeholder meets a key and each `%@` a value in the argument array, and there are as many placeholders as arguments |
| FilterProperties.GreaterThanScenario | Finances-Tracker/Finances-Tracker/FilterData.swift:181-186 | a "greater than" 40.00 filter with no owner gives one strict amount condition and keeps only the 50.00 transaction of three |
| FilterProperties.DateRangeScenarioText | Finances-Tracker/Finances-Tracker/FilterData.swift:127-153 | a January "between" filter with category "equals Rent" and owner "Sample" gives the exact four-condition text and eight arguments |
| FilterProperties.DateRangeScenarioMatches | Finances-Tracker/Finances-Tracker/FilterData.swift:127-134 | that filter accepts both end dates of the range and refuses the day after it |
| FilterProperties.ContainsIgnoresCaseScenario | Finances-Tracker/Finances-Tracker/FilterData.swift:155-160 | "contains dining" matches the category "Dining Out" |
| FilterProperties.EmptyContainsSelectsNothing | Finances-Tracker/Finances-Tracker/FilterData.swift:155-160 | a `contains` option with an empty text still makes the filter active, and the filter then matches no transaction (also lines 222-227) |
| ChartData.ConvertTransactions | Finances-Tracker/Finances-Tracker/TransactionsChartData.swift:35-47 | one record per persisted object is appended, in order, carrying its date, category, amount and vendor; total and subtotals are untouched |
| ChartData.CalculateTotalTransactionsAmount | Finances-Tracker/Finances-Tracker/TransactionsChartData.swift:50-57 | the total becomes the sum of all amounts; records and subtotals are untouched |
| ChartData.CalculateCategoryAmounts | Finances-Tracker/Finances-Tracker/TransactionsChartData.swift:61-77 | each category's entry grows by that category's sum on top of what the map held, the keys gain exactly the occurring categories, the map's values grow by the grand sum, and with `calculateTotal` the total becomes the same sum of all amounts that `CalculateTotalTransactionsAmount` gives, otherwise it is left unchanged |
| ChartData.Init | Finances-Tracker/Finances-Tracker/TransactionsChartData.swift:28-32 | after construction the total is the sum of amounts, the keys are exactly the occurring categories, each subtotal is its category's sum, the subtotals add up to the total, and an empty input gives zero and an empty map |
| ChartData.SumConcat | Finances-Tracker/Finances-Tracker/TransactionsChartData.swift:61-77 | the total and every category sum of two lists joined are the sums of the parts |
| ChartData.SumsIgnoreOrder | Finances-Tracker/Finances-Tracker/TransactionsChartData.swift:61-77 | the total and every category sum depend only on which records there are, not on their order |
| ChartData.AggregationScenario | Finances-Tracker/Finances-Tracker/TransactionsChartData.swift:61-77 | Grocery 50.00, Grocery 30.00 and Gas 20.00 give a total of 100.00, subtotals Grocery 80.00 and Gas 20.00, and no other category |
| Categories.AddCategory | Finances-Tracker/Finances-Tracker/CategoryData.swift:77-95 | a name is accepted if and only if it is non-empty and in neither list; a refused name changes nothing; an accepted one is appended to the custom list; the default list never changes |
| Categories.AddCategoryPreservesValid | Finances-Tracker/Finances-Tracker/CategoryData.swift:85-91 | adding keeps the custom list free of duplicates and disjoint from the default list |
| Categories.AddCategoryTwice | Finances-Tracker/Finances-Tracker/CategoryData.swift:85-88 | adding the name just added is refused and changes nothing |
| Categories.InitWithoutStoredIsValid | Finances-Tracker/Finances-Tracker/CategoryData.swift:52-67 | with no stored custom list, the lists start out satisfying that invariant |
| Categories.KeepMembers | Finances-Tracker/Finances-Tracker/CategoryData.swift:107-113 | a name survives deletion if and only if it stood at a position not being deleted |
| Categories.KeepLength | Finances-Tracker/Finances-Tracker/CategoryData.swift:107-113 | deletion removes as many names as there are distinct in-range positions |
| Categories.KeepPreservesValid | Finances-Tracker/Finances-Tracker/CategoryData.swift:98-116 | deletion keeps the custom list free of duplicates and disjoint from the default list |
| Categories.DeleteCategories | Finances-Tracker/Finances-Tracker/CategoryData.swift:98-116 | visiting the index set from the highest index down removes exactly the names at the in-range original positions, keeps the survivors in order, ignores out-of-range indices, shortens the list by the number of in-range indices, and never touches the default list |
| TransactionList.ComparatorFor | Finances-Tracker/Finances-Tracker/ViewController.swift:373-388 | a comparator is chosen if and only if the key is one of the four record keys (owner and unknown keys get none); the chosen one sorts by that key in the descriptor's direction |
| TransactionList.DescendingMirrorsAscending | Finances-Tracker/Finances-Tracker/ViewController.swift:148-202 | on every key the "descending" comparator is the "ascending" one with its arguments swapped, amount included (whose "ascending" puts the larger first) |
| TransactionList.InOrderAsymmetric | Finances-Tracker/Finances-Tracker/ViewController.swift:148-202 | no comparator puts two transactions each before the other |
| TransactionList.NotBeforeTransitive | Finances-Tracker/Finances-Tracker/ViewController.swift:148-202 | "not before" is transitive for every comparator, so each is a strict weak order that sorting can use |
| TransactionList.Insert | Finances-Tracker/Finances-Tracker/ViewController.swift:375-387 | inserting into a sorted list keeps it sorted and adds exactly that transaction |
| TransactionList.Sort | Finances-Tracker/Finances-Tracker/ViewController.swift:375-387 | sorting returns a permutation in which no transaction stands behind one the comparator puts after it |
| TransactionList.SortDescriptorsDidChange | Finances-Tracker/Finances-Tracker/ViewController.swift:362-392 | no descriptor or an unknown key leaves the window state unchanged; a record key sorts the list into a permutation ordered by the chosen comparator and changes nothing else |
| TransactionList.SortedFieldOrder | Finances-Tracker/Finances-Tracker/ViewController.swift:148-202 | in a sorted list dates, categories and vendors rise under "ascending" and fall under "descending", while amounts fall under "ascending" and rise under "descending" |
| TransactionList.AmountAscendingPutsLargestFirst | Finances-Tracker/Finances-Tracker/ViewController.swift:176-181 | after an "ascending" sort on the amount column the first transaction has the largest amount |
| TransactionList.EditTransaction | Finances-Tracker/Finances-Tracker/ViewController.swift:278-349 | with no selected row nothing changes; otherwise the selection is cleared on every path; without a context nothing else changes; with one, exactly the record keys whose stored value differs are written, the owner never, the row afterwards holds the edited record under its old owner, and `updatedValues` holds if and only if the record differed |
| TransactionList.AddNewTransaction | Finances-Tracker/Finances-Tracker/ViewController.swift:204-247 | without a context or entity nothing happens; otherwise the new object carries the record under the window's owner and joins the end of the list exactly when the save succeeds, and a failed save leaves the list unchanged |
| TransactionDetails.HandleAddOrEditButtonPress | Finances-Tracker/Finances-Tracker/TransactionDetailsViewController.swift:56-105 | an empty vendor is refused before the amount is read, and a non-positive amount is refused next, both with no callback and mode and callbacks kept; an accepted form runs only the edit callback in edit mode or only the add callback in add mode, if set, with the record (date, category, amount, vendor), then clears the mode and both callbacks and dismisses |
| TransactionDetails.SetDefaultDetailValues | Finances-Tracker/Finances-Tracker/TransactionDetailsViewController.swift:154-166 | the category becomes the first menu entry, the picker shows the current date, both text fields are emptied, and nothing else changes |
| TransactionDetails.SetSpecificDetailValues | Finances-Tracker/Finances-Tracker/TransactionDetailsViewController.swift:169-175 | the four stored fields become exactly the record's, and nothing else changes |
| TransactionDetails.ViewWillAppear | Finances-Tracker/Finances-Tracker/TransactionDetailsViewController.swift:124-151 | in edit mode the controls show the stored values; in add mode the form is reset to its defaults |
| TransactionDetails.DefaultFormIsRejected | Finances-Tracker/Finances-Tracker/TransactionDetailsViewController.swift:124-166 | a form freshly reset for adding is always refused, because its vendor field is empty |
| TransactionDetails.EditRoundTrip | Finances-Tracker/Finances-Tracker/TransactionDetailsViewController.swift:56-175 | opening a record for editing and confirming it untouched hands the edit callback the same record when it passes the gate, and is refused in edit mode when it does not |
| TransactionDetails.FirstOpenShowsDefaults | Finances-Tracker/Finances-Tracker/TransactionDetailsViewController.swift:22-35 | a form created with its declared defaults and opened for the first time is in add mode, shows the first menu category, the current date and empty fields (also lines 124-166) |
| TransactionDetails.AcceptedPressReturnsToAddMode | Finances-Tracker/Finances-Tracker/TransactionDetailsViewController.swift:100-151 | after an accepted press, reopening the form shows a blank add form |
| Text.LexLessTransitive | Finances-Tracker/Finances-Tracker/ViewController.swift:162-174 | the string order the category and vendor comparators use is transitive |
| Text.LexLessConnected | Finances-Tracker/Finances-Tracker/ViewController.swift:162-174 | any two different strings are ordered one way or the other |

## Left out

- The defaults declared for `TransactionData`'s fields (TransactionData.swift lines 30-33) are overwritten by its only initialiser (line 35) and are never observable, so no contract states them.
- The main window's starting state (owner "Sample", no row selected for editing; ViewController.swift lines 24 and 38) is not a separate definition: every list operation is stated for any state.
- Core Data: the managed-object context, `fetch`, `loadTransactions` and the entity setup are not modelled. A save is a boolean outcome passed in. In `addNewTransaction` the new object stays inserted in the context even when the save fails; the model reports it in `inserted` and leaves the list unchanged.
- `editTransaction` has no save-outcome input: a failed save leaves the in-memory edits in place (the source does not roll back) and changes nothing the model tracks.
- `NSPredicate` parsing and evaluation belong to Foundation; `Matches` gives the meaning of the built conditions instead. The `catch` after the predicate constructor (FilterData.swift lines 255-261) is not modelled: the Swift initialiser does not throw, and the format is always assembled from fixed well-formed fragments, so that branch is never taken.
- Diacritic folding and locale-aware comparison are not modelled. `CONTAINS[cd]` folds only ASCII letter case, and `String.compare` is plain code-point order.
- Swift `Double` arithmetic is not modelled: amounts are exact integer cents, so sums carry no rounding.
- Swift's sort is not stable, and the order it leaves among equal keys is not modelled. `Sort` is an insertion sort whose contract promises only what any correct sort gives: a permutation in comparator order.
- `UserDefaults` loading and saving of custom categories is not modelled. The stored list is an input to `Categories.Init`, and saving is a no-op.
- The `indices.count < 0` guard in `deleteCategories` can never fire and is not modelled. An `IndexSet` is a strictly increasing list of indices.
- The table-view reloads, the `updateView` flags, dismissal animations, button titles and pop-up selection are not modelled. Dismissal is a flag of the press outcome.
- Date and currency formatting, the double-click handler's row guard, and reading the amount field's text as a number are not modelled. The form holds the amount as a number already, with an empty field reading 0.
- `PieChartView.swift`, `PieChartViewController.swift`, `CustomCategoryViewController.swift`, `OwnerDetailsViewController.swift` and `ErrorMessageViewController.swift` are view wiring and drawing, and are not part of this model.
- `TransactionData`'s initialiser is the `Transaction` constructor, which stores exactly the four given values; constructors carry no contract of their own.
- A reversed `between` range (start after end, or `amount` above `amountOther`) is accepted; the filter then selects nothing.
- The builder reports no error of its own: its only outcomes are a predicate or nil.
- Managed-object identity and aliasing are not modelled. A persisted transaction is a value (its record and owner), so the list operations and `Sort`'s permutation speak about values, and two objects holding the same values are not told apart.
- Trap paths of the source are not modelled. They are the out-of-range row index in `editTransaction` (ViewController.swift line 296), the force-unwrapped sort-descriptor key (line 369), and the force-unwrapped typed reads of a missing or ill-typed attribute (TransactionsChartData.swift lines 39-42, ViewController.swift lines 150-201 and 299-302). Callers never reach them: the row comes from a selection in a table with one row per transaction, every column's sort descriptor is created with a key (ViewController.swift lines 107-114), and every object is written with all four record values before it is saved (lines 220-226). `TransactionList.EditTransaction` therefore requires a selected row inside the list, `SortDescriptor.key` is a plain string, and `ValueForKey` always yields a value of the key's kind.
- Categories.AddCategory: names are compared code point by code point, while Swift's `String` equality and `contains` identify canonically equivalent spellings (a precomposed "é" and "e" plus a combining accent). A name that differs from a listed one only in such a spelling is accepted here but refused by the source.
- ChartData.CalculateCategoryAmounts: category keys are compared code point by code point, so canonically equivalent spellings of one category get separate entries here, where the Swift dictionary merges them into one.
- ChartData.Init: for the same reason, its key set and subtotals keep canonically equivalent spellings of a category apart.
- TransactionList.EditTransaction: category and vendor are compared code point by code point, so a canonically equivalent but differently encoded text is written and sets `updatedValues` here, while the source's `!=` leaves it unwritten.
