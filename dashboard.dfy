/** The dashboard's logic: the totals shown above the list, the filter picked
    from the spinner, and what each list state puts on screen. */
module Dashboard {
  import opened Wrappers
  import opened Model
  import opened Dao
  import opened Repo
  import opened ViewStates
  import opened ViewModel

  /** The three figures above the list. */
  datatype Totals = Totals(income: real, expense: real, balance: real)

  /** Kotlin's `partition`: the records of the type first, all others second,
      each side in list order. */
  function Partition(s: seq<Transaction>, transactionType: string): (p: (seq<Transaction>, seq<Transaction>))
    ensures p.0 == OfType(s, transactionType) && p.1 == NotOfType(s, transactionType)
    ensures |p.0| + |p.1| == |s|
    ensures multiset(p.0) + multiset(p.1) == multiset(s)
  {
    SplitAddsUp(s, transactionType);
    SplitIsPermutation(s, transactionType);
    if s == [] then ([], [])
    else
      var rest := Partition(s[1..], transactionType);
      if s[0].transactionType == transactionType then ([s[0]] + rest.0, rest.1)
      else (rest.0, [s[0]] + rest.1)
  }

  /** `onTotalTransactionLoaded`: income sums the `"Income"` records, expense
      sums every other record (whatever its type), and the balance is their
      difference; income and expense together are the sum of all amounts. */
  function TotalsOf(transaction: seq<Transaction>): (t: Totals)
    ensures t.income == Sum(OfType(transaction, IncomeType))
    ensures t.expense == Sum(NotOfType(transaction, IncomeType))
    ensures t.income + t.expense == Sum(transaction)
    ensures t.balance == t.income - t.expense
  {
    var p := Partition(transaction, IncomeType);
    var income := Sum(p.0);
    var expense := Sum(p.1);
    SplitAddsUp(transaction, IncomeType);
    Totals(income, expense, income - expense)
  }

  /** Two incomes of 100 and 25 and an expense of 40 give 125, 40 and 85. */
  lemma TotalsExample()
    ensures
      var list := [
        Transaction("Salary", 100.0, IncomeType, "Work", "01/01/2024", "", 3, 1),
        Transaction("Food", 40.0, ExpenseType, "Food", "02/01/2024", "", 2, 2),
        Transaction("Gift", 25.0, IncomeType, "Other", "03/01/2024", "", 1, 3)];
      TotalsOf(list) == Totals(125.0, 40.0, 85.0)
  {
    var a := Transaction("Salary", 100.0, IncomeType, "Work", "01/01/2024", "", 3, 1);
    var b := Transaction("Food", 40.0, ExpenseType, "Food", "02/01/2024", "", 2, 2);
    var c := Transaction("Gift", 25.0, IncomeType, "Other", "03/01/2024", "", 1, 3);
    var list := [a, b, c];
    assert list[1..] == [b, c] && [b, c][1..] == [c] && [c][1..] == [];
    assert OfType(list, IncomeType) == [a, c];
    assert [a, c][1..] == [c];
    assert NotOfType(list, IncomeType) == [b];
    assert [b][1..] == [];
    assert Sum([c]) == 25.0;
    assert Sum([a, c]) == 125.0;
    assert Sum([b]) == 40.0;
  }

  /** A record of any type other than `"Income"` counts as expense, not only
      those typed `"Expense"`. */
  lemma OtherTypesCountAsExpense(t: Transaction)
    requires t.transactionType != IncomeType
    ensures TotalsOf([t]).expense == t.amount && TotalsOf([t]).income == 0.0
  {
    assert [t][1..] == [];
  }

  /** Under the `"Income"` filter the list holds only incomes: the expense total
      is zero and the income total is the sum of the list. */
  lemma IncomeFilterTotals(repo: TransactionRepo)
    ensures TotalsOf(repo.GetAllSingleTransaction(IncomeType)).expense == 0.0
    ensures TotalsOf(repo.GetAllSingleTransaction(IncomeType)).income == Sum(repo.GetAllSingleTransaction(IncomeType))
  {
    AllOfOneType(repo.GetAllSingleTransaction(IncomeType), IncomeType);
  }

  /** Under the `"Expense"` filter nothing is income: the income total is zero
      and the expense total is the sum of the list. */
  lemma ExpenseFilterTotals(repo: TransactionRepo)
    ensures TotalsOf(repo.GetAllSingleTransaction(ExpenseType)).income == 0.0
    ensures TotalsOf(repo.GetAllSingleTransaction(ExpenseType)).expense == Sum(repo.GetAllSingleTransaction(ExpenseType))
  {
    var list := repo.GetAllSingleTransaction(ExpenseType);
    AllOfOneType(list, ExpenseType);
    SplitAddsUp(list, ExpenseType);
    NoneOfType(list, IncomeType);
  }

  /** What the spinner reports: an item at a position, or nothing selected. */
  datatype Selection = Item(position: int) | Nothing

  /** The filter a spinner event selects: positions 0, 1 and 2 pick
      `"Overall"`, `"Income"` and `"Expense"`, one each; nothing selected picks
      `"Overall"`; any other position picks nothing and the filter stays. */
  function SelectedFilter(selection: Selection): (r: Option<string>)
    ensures r.Some? <==> selection.Nothing? || 0 <= selection.position <= 2
    ensures r.Some? ==> r.value in {OverallFilter, IncomeType, ExpenseType}
    ensures selection.Nothing? ==> r == Some(OverallFilter)
  {
    match selection
    case Nothing => Some(OverallFilter)
    case Item(position) =>
      if position == 0 then Some(OverallFilter)
      else if position == 1 then Some(IncomeType)
      else if position == 2 then Some(ExpenseType)
      else None
  }

  /** Position 0 selects `"Overall"`, position 1 `"Income"` and position 2
      `"Expense"`; nothing selected acts as position 0; the three positions
      select three different filters, and each filter is selected by one. */
  lemma SpinnerPositionMapping()
    ensures SelectedFilter(Item(0)) == Some(OverallFilter)
    ensures SelectedFilter(Item(1)) == Some(IncomeType)
    ensures SelectedFilter(Item(2)) == Some(ExpenseType)
    ensures SelectedFilter(Nothing) == SelectedFilter(Item(0))
    ensures forall p, q :: 0 <= p <= 2 && 0 <= q <= 2 && p != q ==> SelectedFilter(Item(p)) != SelectedFilter(Item(q))
    ensures forall f :: f in {OverallFilter, IncomeType, ExpenseType} ==> exists p :: 0 <= p <= 2 && SelectedFilter(Item(p)) == Some(f)
  {
    assert SelectedFilter(Item(0)) == Some(OverallFilter);
    assert SelectedFilter(Item(1)) == Some(IncomeType);
    assert SelectedFilter(Item(2)) == Some(ExpenseType);
  }

  /** `onItemSelected` / `onNothingSelected`: the spinner event calls the view
      model's filter setter; the rest of the view model is untouched. */
  method OnSpinnerEvent(vm: TransactionViewModel, selection: Selection)
    modifies vm`transactionFilter
    ensures vm.transactionFilter == SelectedFilter(selection).GetOr(old(vm.transactionFilter))
  {
    match selection
    case Nothing => vm.Overall();
    case Item(position) =>
      if position == 0 {
        vm.Overall();
      } else if position == 1 {
        vm.AllIncome();
      } else if position == 2 {
        vm.AllExpense();
      }
  }

  /** `observeFilter`: the current filter is passed unchanged to the query
      that feeds the list state. */
  method OnFilterChanged(vm: TransactionViewModel)
    modifies vm`uiState
    ensures vm.uiState == ViewStateOf(vm.transactionRepo.GetAllSingleTransaction(vm.transactionFilter))
  {
    vm.GetAllTransaction(vm.transactionFilter);
  }

  /** What the dashboard does for a list state. */
  datatype Screen =
    | Unchanged
    | ShowList(list: seq<Transaction>, totals: Totals)
    | ErrorNotice
    | EmptyLayout

  /** `observeTransaction`: a `Success` list is shown with totals computed from
      that same list, `Empty` shows the empty layout, `Error` a notice, and
      `Loading` changes nothing. */
  function Render(uiState: ViewState): (s: Screen)
    ensures s.ShowList? <==> uiState.Success?
    ensures s.ShowList? ==> s.list == uiState.transaction && s.totals == TotalsOf(s.list)
    ensures s.EmptyLayout? <==> uiState.Empty?
    ensures s.ErrorNotice? <==> uiState.Error?
    ensures s.Unchanged? <==> uiState.Loading?
  {
    match uiState
    case Loading => Unchanged
    case Success(list) => ShowList(list, TotalsOf(list))
    case Error(_) => ErrorNotice
    case Empty => EmptyLayout
  }

  /** A table with no rows of the filtered type resolves to the empty layout;
      any matching row resolves to the list, with every shown row of that type. */
  lemma RenderAfterQuery(repo: TransactionRepo, transactionType: string)
    requires transactionType != OverallFilter
    ensures var screen := Render(ViewStateOf(repo.GetAllSingleTransaction(transactionType)));
      (screen.EmptyLayout? <==> forall t :: t in repo.db.rows.Values ==> t.transactionType != transactionType)
      && (screen.ShowList? ==> forall t :: t in screen.list ==> t.transactionType == transactionType)
  {
    var list := repo.GetAllSingleTransaction(transactionType);
    if list == [] {
      forall t | t in repo.db.rows.Values ensures t.transactionType != transactionType {
        var k :| k in repo.db.rows && repo.db.rows[k] == t;
        assert IsRow(repo.db.rows, t);
        assert t !in list;
      }
    } else {
      assert list[0] in list;
      assert list[0] in repo.db.rows.Values by { assert IsRow(repo.db.rows, list[0]); }
    }
  }
}
