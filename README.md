# Expense tracker: transaction table, repository, view model and dashboard logic

A Dafny model of the logic core of an Android expense tracker. Users record
income and expense transactions and list them, filtered or not. The dashboard
shows totals. A swipe-delete can be undone once. The model covers:

- **The `all_transactions` table and its data-access object** (`Dao`). The
  table is a `map` from primary key to record; every row is stored under its
  own `id` (the subset type `Dao.Table`). The four mutations (upsert, update,
  delete by record, delete by id) are methods of the class
  `Dao.TransactionDao`. Each is specified by a pure function on the table. The
  three selects are pure functions: all rows newest first, the rows of one type
  (exact, case-sensitive match) newest first, and the row with an id.
- **The repository** (`Repo`). Mutations are forwarded one to one. The filter
  string `"Overall"` selects the unfiltered listing; every other string is
  passed unchanged to the type query.
- **The view states** (`ViewStates`). `ViewState` has four cases: `Loading`,
  `Empty` (no data), `Success` (a list of records) and `Error` (a failure kept
  abstract as a reason). `DetailState` has the same four cases over one
  record. Equality of two `Success` values is equality of their lists, as for
  any Dafny datatype.
- **The view model** (`ViewModel`). This is a class with the current filter,
  the list state, the details state and a one-slot undo buffer. Its methods
  change those fields and the table through the repository.
- **The dashboard** (`Dashboard`). It covers the income / expense / balance
  totals, the spinner-position-to-filter mapping, the hand-off of the current
  filter to the query, and what each list state puts on screen.
- **The add-transaction form** (`AddTransaction`). This is the first-match
  validation of six fields and the record built from them.

Amounts are `real`. Reads are modelled as one snapshot of the table, taken
when the method runs.

Two behaviours of the code are easy to misread:

- The dashboard's expense total sums every record whose type is not
  `"Income"`: a record of any other type counts as expense, not only those
  typed `"Expense"`.
- Room's `@Update` rewrites every column of the matching row, `createdAt`
  included, with the values the record carries. The model does not keep the
  old `createdAt`.

The selects order rows by `createdAt` descending. The SQL fixes no order among
rows created at the same instant. The model breaks such ties by ascending key,
in both listings. The results that say the type query is exactly the full
listing filtered by type (`Dao.TypeQueryIsFilteredListing`,
`Dao.ListingOfType`, `Repo.FilterWithinOverall`) depend on that shared
tie-break; without it the program promises only that the type query holds the
rows of that type, each once, newest first.

## Model

| member | source | states |
|---|---|---|
| `Dao.GetAllTransactions` | app/src/main/java/com/abhay/expensetracker/data/TransactionDao.kt:23-24 | every row exactly once (no repeats, length equals the table size, membership iff stored), `createdAt` non-increasing |
| `Dao.GetAllSingleTransaction` | app/src/main/java/com/abhay/expensetracker/data/TransactionDao.kt:26-27 | exactly the stored rows whose type equals the argument, each once (no repeats, length equals the number of rows of that type), `createdAt` non-increasing |
| `Dao.GetTransactionById` | app/src/main/java/com/abhay/expensetracker/data/TransactionDao.kt:29-30 | a row exactly when the id is stored, and then the stored row with that id |
| `Dao.Listing` | app/src/main/java/com/abhay/expensetracker/data/TransactionDao.kt:23-27 | the rows under a set of keys, each once (no repeats, length equals the number of keys), newest first |
| `Dao.Upsert` | app/src/main/java/com/abhay/expensetracker/data/TransactionDao.kt:14-15 | afterwards the record is the row under its id, the key set gains that id, and every other row is unchanged |
| `Dao.Update` | app/src/main/java/com/abhay/expensetracker/data/TransactionDao.kt:17-18 | the key set is unchanged, an existing row with the record's id is replaced, and no other row changes |
| `Dao.Delete` | app/src/main/java/com/abhay/expensetracker/data/TransactionDao.kt:20-21 | deleting a record is deleting by its primary key, whatever its other fields |
| `Dao.DeleteById` | app/src/main/java/com/abhay/expensetracker/data/TransactionDao.kt:32-33 | the id leaves the key set and every remaining row is unchanged |
| `Dao.ListingOfType` | app/src/main/java/com/abhay/expensetracker/data/TransactionDao.kt:23-27 | listing the keys of one type equals listing all keys and then dropping the other types |
| `Dao.TypeQueryIsFilteredListing` | app/src/main/java/com/abhay/expensetracker/data/TransactionDao.kt:23-27 | the type query is the full listing filtered to that type: a subsequence of it, in the same order |
| `Dao.UpsertThenGet` | app/src/main/java/com/abhay/expensetracker/data/TransactionDao.kt:14-30 | an upserted record is found again by its id |
| `Dao.DeleteByIdIdempotent` | app/src/main/java/com/abhay/expensetracker/data/TransactionDao.kt:32-33 | deleting twice equals deleting once; deleting an absent id changes nothing |
| `Dao.DeleteThenUpsert` | app/src/main/java/com/abhay/expensetracker/data/TransactionDao.kt:14-21 | deleting a record and upserting it back restores the table iff the record was the stored row |
| `Dao.TransactionDao.InsertTransaction` | app/src/main/java/com/abhay/expensetracker/data/TransactionDao.kt:14-15 | the table becomes the upsert of the record |
| `Dao.TransactionDao.UpdateTransaction` | app/src/main/java/com/abhay/expensetracker/data/TransactionDao.kt:17-18 | the table becomes the update by the record |
| `Dao.TransactionDao.DeleteTransaction` | app/src/main/java/com/abhay/expensetracker/data/TransactionDao.kt:20-21 | the table loses the row with the record's key |
| `Dao.TransactionDao.DeleteTransactionById` | app/src/main/java/com/abhay/expensetracker/data/TransactionDao.kt:32-33 | the table loses the row with that id |
| `Repo.TransactionRepo.Insert` | app/src/main/java/com/abhay/expensetracker/repo/TransactionRepo.kt:10-12 | the same effect on the table as the data-access upsert |
| `Repo.TransactionRepo.Update` | app/src/main/java/com/abhay/expensetracker/repo/TransactionRepo.kt:15-17 | the same effect on the table as the data-access update |
| `Repo.TransactionRepo.Delete` | app/src/main/java/com/abhay/expensetracker/repo/TransactionRepo.kt:20-22 | the same effect on the table as the data-access delete |
| `Repo.TransactionRepo.DeleteByID` | app/src/main/java/com/abhay/expensetracker/repo/TransactionRepo.kt:37-38 | the same effect on the table as the data-access delete by id |
| `Repo.TransactionRepo.GetAllTransactions` | app/src/main/java/com/abhay/expensetracker/repo/TransactionRepo.kt:24-25 | every row once, newest first |
| `Repo.TransactionRepo.GetAllSingleTransaction` | app/src/main/java/com/abhay/expensetracker/repo/TransactionRepo.kt:27-32 | for `"Overall"` every stored row; for any other string exactly the rows of that type; either way each row once (no repeats, length equals the number of matching rows), newest first |
| `Repo.TransactionRepo.GetByID` | app/src/main/java/com/abhay/expensetracker/repo/TransactionRepo.kt:34-35 | a row exactly when the id is stored, and then the stored row with that id |
| `Repo.OverallIsEverything` | app/src/main/java/com/abhay/expensetracker/repo/TransactionRepo.kt:28-29 | the `"Overall"` filter equals the full listing in every table state |
| `Repo.FilterWithinOverall` | app/src/main/java/com/abhay/expensetracker/repo/TransactionRepo.kt:25-32 | any other filter equals the `"Overall"` result restricted to that type, so it is a subsequence of it |
| `Repo.FiltersAreExact` | app/src/main/java/com/abhay/expensetracker/repo/TransactionRepo.kt:28-32 | `"Income"` never yields an `"Expense"` row; lower-case `"overall"` is treated as a type |
| `ViewModel.ViewStateOf` | app/src/main/java/com/abhay/expensetracker/view/main/viewmodel/TransactionViewModel.kt:59-66 | an empty result gives `Empty`, any other result `Success` with the identical list |
| `ViewModel.TransactionViewModel.constructor` | app/src/main/java/com/abhay/expensetracker/view/main/viewmodel/TransactionViewModel.kt:21-30 | the filter starts at `"Overall"`, both states at `Loading`, and nothing is held for undo |
| `ViewModel.TransactionViewModel.InsertTransaction` | app/src/main/java/com/abhay/expensetracker/view/main/viewmodel/TransactionViewModel.kt:33-35 | the table becomes the upsert of the record; no field of the view model changes |
| `ViewModel.TransactionViewModel.UpdateTransaction` | app/src/main/java/com/abhay/expensetracker/view/main/viewmodel/TransactionViewModel.kt:38-40 | the table becomes the update by the record; no field of the view model changes |
| `ViewModel.TransactionViewModel.DeleteTransaction` | app/src/main/java/com/abhay/expensetracker/view/main/viewmodel/TransactionViewModel.kt:43-46 | the record becomes the undo buffer, replacing the previous one, and its row is deleted; filter and states unchanged |
| `ViewModel.TransactionViewModel.UndoTransactionDeletion` | app/src/main/java/com/abhay/expensetracker/view/main/viewmodel/TransactionViewModel.kt:49-55 | no change when nothing is held; otherwise the held record is upserted and stays held |
| `ViewModel.TransactionViewModel.GetAllTransaction` | app/src/main/java/com/abhay/expensetracker/view/main/viewmodel/TransactionViewModel.kt:58-67 | the list state becomes the view state of the resolved query for the given filter; nothing else changes |
| `ViewModel.TransactionViewModel.GetByID` | app/src/main/java/com/abhay/expensetracker/view/main/viewmodel/TransactionViewModel.kt:70-77 | the details state is `Success` of the stored row when the id exists, and `Loading` otherwise (never `Empty`) |
| `ViewModel.TransactionViewModel.DeleteByID` | app/src/main/java/com/abhay/expensetracker/view/main/viewmodel/TransactionViewModel.kt:80-82 | the row with the id is deleted; the undo buffer and the states are untouched |
| `ViewModel.TransactionViewModel.AllIncome` | app/src/main/java/com/abhay/expensetracker/view/main/viewmodel/TransactionViewModel.kt:84-86 | the filter becomes `"Income"`; no other field changes, so repeating it changes nothing |
| `ViewModel.TransactionViewModel.AllExpense` | app/src/main/java/com/abhay/expensetracker/view/main/viewmodel/TransactionViewModel.kt:88-90 | the filter becomes `"Expense"`; no other field changes |
| `ViewModel.TransactionViewModel.Overall` | app/src/main/java/com/abhay/expensetracker/view/main/viewmodel/TransactionViewModel.kt:92-94 | the filter becomes `"Overall"`; no other field changes |
| `ViewModel.DeleteThenUndo` | app/src/main/java/com/abhay/expensetracker/view/main/viewmodel/TransactionViewModel.kt:43-55 | deleting the stored row and undoing at once restores the table and leaves filter and states unchanged |
| `ViewModel.DeleteByIdThenUndo` | app/src/main/java/com/abhay/expensetracker/view/main/viewmodel/TransactionViewModel.kt:43-82 | a delete by id in between leaves the undo buffer on the swiped record, and the undo re-inserts that record |
| `Model.OfType` | app/src/main/java/com/abhay/expensetracker/view/dashboard/DashboardFragment.kt:216 | exactly the records of the type, as a subsequence of the list |
| `Model.NotOfType` | app/src/main/java/com/abhay/expensetracker/view/dashboard/DashboardFragment.kt:216 | exactly the records of any other type, as a subsequence of the list |
| `Model.SplitAddsUp` | app/src/main/java/com/abhay/expensetracker/view/dashboard/DashboardFragment.kt:216-218 | the sizes and the sums of the two sides of a split add up to those of the whole list |
| `Model.SplitIsPermutation` | app/src/main/java/com/abhay/expensetracker/view/dashboard/DashboardFragment.kt:216 | the two sides of a split together hold each record of the list exactly once |
| `Dashboard.Partition` | app/src/main/java/com/abhay/expensetracker/view/dashboard/DashboardFragment.kt:216 | the first side is the records of the type and the second all others, each in list order; nothing is lost or duplicated |
| `Dashboard.TotalsOf` | app/src/main/java/com/abhay/expensetracker/view/dashboard/DashboardFragment.kt:215-222 | income is the sum over `"Income"` records; expense is the sum over every other record; income plus expense is the sum of all amounts; balance is income minus expense |
| `Dashboard.TotalsExample` | app/src/main/java/com/abhay/expensetracker/view/dashboard/DashboardFragment.kt:216-221 | incomes 100 and 25 and an expense of 40 give totals 125, 40 and 85 |
| `Dashboard.OtherTypesCountAsExpense` | app/src/main/java/com/abhay/expensetracker/view/dashboard/DashboardFragment.kt:216-218 | a record of a type other than `"Income"` counts as expense |
| `Dashboard.IncomeFilterTotals` | app/src/main/java/com/abhay/expensetracker/view/dashboard/DashboardFragment.kt:215-222 | under the `"Income"` filter the expense total is zero and the income total is the sum of the list |
| `Dashboard.ExpenseFilterTotals` | app/src/main/java/com/abhay/expensetracker/view/dashboard/DashboardFragment.kt:215-222 | under the `"Expense"` filter the income total is zero and the expense total is the sum of the list |
| `Dashboard.SelectedFilter` | app/src/main/java/com/abhay/expensetracker/view/dashboard/DashboardFragment.kt:110-132 | positions 0 to 2 and "nothing selected" pick one of the three filters (nothing selected picks `"Overall"`); other positions pick none |
| `Dashboard.SpinnerPositionMapping` | app/src/main/java/com/abhay/expensetracker/view/dashboard/DashboardFragment.kt:110-132 | position 0 picks `"Overall"`, 1 picks `"Income"`, 2 picks `"Expense"`; nothing selected acts as position 0; the three positions pick three different filters and every filter is reachable |
| `Dashboard.OnSpinnerEvent` | app/src/main/java/com/abhay/expensetracker/view/dashboard/DashboardFragment.kt:101-135 | the filter becomes the selected one, or stays as it was for a position outside 0 to 2; nothing else changes |
| `Dashboard.OnFilterChanged` | app/src/main/java/com/abhay/expensetracker/view/dashboard/DashboardFragment.kt:138-165 | the current filter is passed unchanged to the query that sets the list state |
| `Dashboard.Render` | app/src/main/java/com/abhay/expensetracker/view/dashboard/DashboardFragment.kt:224-244 | each of the four states has its own screen; on `Success` the list shown is the state's list, and the totals are computed from that same list |
| `Dashboard.RenderAfterQuery` | app/src/main/java/com/abhay/expensetracker/view/dashboard/DashboardFragment.kt:224-244 | a type filter leads to the empty layout iff no stored row has that type; every listed row has that type |
| `AddTransaction.OnSave` | app/src/main/java/com/abhay/expensetracker/view/add/AddTransactionFragment.kt:58-111 | insert iff all six checks pass; otherwise exactly one error, that of the first failing field in the order title, amount, type, tag, date, note; the inserted record carries the six validated values |
| `AddTransaction.EmptyTitleRejected` | app/src/main/java/com/abhay/expensetracker/view/add/AddTransactionFragment.kt:62-64 | an empty title is reported whatever the other fields hold |
| `AddTransaction.NaNAmountRejected` | app/src/main/java/com/abhay/expensetracker/view/add/AddTransactionFragment.kt:66-68 | with a title present, an amount that did not parse is reported |
| `AddTransaction.OnSaveClicked` | app/src/main/java/com/abhay/expensetracker/view/add/AddTransactionFragment.kt:56-97 | a failed check leaves the table unchanged; a pass adds exactly one row, the validated record under the fresh key |

## Left out

- Room/SQLite persistence, the database and DI wiring, and the schema and its migration policy. The table is an in-memory map.
- Reactive `Flow` re-emission, coroutine launching and collecting, and lifecycle scopes. Each read is one snapshot taken when the method runs. Collectors racing on the list state are not modelled.
- ViewModel.TransactionViewModel.GetAllTransaction: publishes the result of one query. It does not keep publishing as the table changes, as the source's collector does.
- ViewModel.TransactionViewModel.GetByID: likewise one snapshot. A later update of the row, which the source's collector republishes as `Success` of the updated record, is not followed (a later deletion emits `null`, which the source ignores, so it changes nothing either way).
- Storage failures. No model operation fails. `ViewState.Error` and `DetailState.Error` exist as cases but nothing in the modelled code produces them.
- `Double` arithmetic, rounding and rupee formatting. Amounts are exact reals.
- `parseDouble` is not part of this model. Its result is the form's `Amount`, with `NaN` as an explicit case.
- Id auto-generation and the `createdAt` default belong to the `Transaction` model file, which is not part of this model. They are parameters of `AddTransaction.OnSaveClicked`, which requires the id to be fresh.
- Ids are not reused after deletion; this needs the table's history, which the model does not keep, so it is not modelled.
- Dao.TypeQueryIsFilteredListing, Repo.FilterWithinOverall: the same-order equality with the full listing holds under the model's one tie-break for equal `createdAt`; SQLite need not order ties the same way in two separate selects.
- The dashboard's swipe handling, snackbars, view binding, menu wiring and the title changes per filter in `observeFilter`. These are UI effects.
- The details screen, the main activity and the about screen. These are UI and intents.
- The form calls `getTransactionContent` twice, once to validate and once to insert. The model reads the form once, as both calls read the same fields.
