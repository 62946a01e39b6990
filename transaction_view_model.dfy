/** The view model shared by the screens: the current filter, the list and
    details states, and the one-slot buffer that makes a swipe-delete undoable.
    Each read is modelled as one snapshot of the table taken when the method
    runs. */
module ViewModel {
  import opened Wrappers
  import opened Model
  import opened Dao
  import opened Repo
  import opened ViewStates

  /** The list state a query result produces: `Empty` for no rows, otherwise
      `Success` holding exactly the rows of the result. */
  function ViewStateOf(result: seq<Transaction>): (s: ViewState)
    ensures s.Empty? <==> result == []
    ensures !s.Empty? ==> s == ViewState.Success(result)
  {
    if result == [] then ViewState.Empty else ViewState.Success(result)
  }

  class TransactionViewModel {
    const transactionRepo: TransactionRepo
    var transactionFilter: string
    var uiState: ViewState
    var detailState: DetailState
    /** The record of the last swipe-delete, if any. */
    var deletedTransaction: Option<Transaction>

    constructor (transactionRepo: TransactionRepo)
      ensures this.transactionRepo == transactionRepo
      ensures transactionFilter == OverallFilter
      ensures uiState == ViewState.Loading && detailState == DetailState.Loading
      ensures deletedTransaction == None
    {
      this.transactionRepo := transactionRepo;
      transactionFilter := OverallFilter;
      uiState := ViewState.Loading;
      detailState := DetailState.Loading;
      deletedTransaction := None;
    }

    method InsertTransaction(transaction: Transaction)
      modifies transactionRepo.db
      ensures transactionRepo.db.rows == Upsert(old(transactionRepo.db.rows), transaction)
    {
      transactionRepo.Insert(transaction);
    }

    method UpdateTransaction(transaction: Transaction)
      modifies transactionRepo.db
      ensures transactionRepo.db.rows == Dao.Update(old(transactionRepo.db.rows), transaction)
    {
      transactionRepo.Update(transaction);
    }

    /** Remembers the record for undo, replacing whatever was remembered, and
        deletes its row. */
    method DeleteTransaction(transaction: Transaction)
      modifies this`deletedTransaction, transactionRepo.db
      ensures deletedTransaction == Some(transaction)
      ensures transactionRepo.db.rows == Dao.Delete(old(transactionRepo.db.rows), transaction)
    {
      deletedTransaction := Some(transaction);
      transactionRepo.Delete(transaction);
    }

    /** Re-inserts the remembered record, if there is one, and keeps it
        remembered. */
    method UndoTransactionDeletion()
      modifies transactionRepo.db
      ensures deletedTransaction.None? ==> transactionRepo.db.rows == old(transactionRepo.db.rows)
      ensures deletedTransaction.Some? ==>
        transactionRepo.db.rows == Upsert(old(transactionRepo.db.rows), deletedTransaction.value)
    {
      match deletedTransaction
      case Some(t) => transactionRepo.Insert(t);
      case None =>
    }

    /** Resolves the filter against the table and publishes the result. */
    method GetAllTransaction(transactionType: string)
      modifies this`uiState
      ensures uiState == ViewStateOf(transactionRepo.GetAllSingleTransaction(transactionType))
    {
      var result := transactionRepo.GetAllSingleTransaction(transactionType);
      if result == [] {
        uiState := ViewState.Empty;
      } else {
        uiState := ViewState.Success(result);
      }
    }

    /** Publishes `Loading`, then the row when there is one; an absent row
        leaves `Loading` in place and never produces `Empty`. */
    method GetByID(id: int)
      modifies this`detailState
      ensures id in transactionRepo.db.rows ==> detailState == DetailState.Success(transactionRepo.db.rows[id])
      ensures id !in transactionRepo.db.rows ==> detailState == DetailState.Loading
    {
      detailState := DetailState.Loading;
      var result := transactionRepo.GetByID(id);
      if result.Some? {
        detailState := DetailState.Success(result.value);
      }
    }

    /** Deletes by id and does not touch the undo buffer. */
    method DeleteByID(id: int)
      modifies transactionRepo.db
      ensures transactionRepo.db.rows == DeleteById(old(transactionRepo.db.rows), id)
    {
      transactionRepo.DeleteByID(id);
    }

    method AllIncome()
      modifies this`transactionFilter
      ensures transactionFilter == IncomeType
    {
      transactionFilter := IncomeType;
    }

    method AllExpense()
      modifies this`transactionFilter
      ensures transactionFilter == ExpenseType
    {
      transactionFilter := ExpenseType;
    }

    method Overall()
      modifies this`transactionFilter
      ensures transactionFilter == OverallFilter
    {
      transactionFilter := OverallFilter;
    }
  }

  /** A swipe-delete of the stored row followed at once by undo restores the
      table; the deleted record stays in the undo buffer. */
  method DeleteThenUndo(vm: TransactionViewModel, transaction: Transaction)
    requires IsRow(vm.transactionRepo.db.rows, transaction)
    modifies vm, vm.transactionRepo.db
    ensures vm.transactionRepo.db.rows == old(vm.transactionRepo.db.rows)
    ensures vm.deletedTransaction == Some(transaction)
    ensures vm.transactionFilter == old(vm.transactionFilter)
    ensures vm.uiState == old(vm.uiState) && vm.detailState == old(vm.detailState)
  {
    vm.DeleteTransaction(transaction);
    vm.UndoTransactionDeletion();
    DeleteThenUpsert(old(vm.transactionRepo.db.rows), transaction);
  }

  /** Deleting by id in between does not move the undo buffer: the undo puts
      back the earlier swiped record, not the row deleted by id. */
  method DeleteByIdThenUndo(vm: TransactionViewModel, swiped: Transaction, id: int)
    modifies vm, vm.transactionRepo.db
    ensures vm.deletedTransaction == Some(swiped)
    ensures vm.transactionFilter == old(vm.transactionFilter)
    ensures vm.uiState == old(vm.uiState) && vm.detailState == old(vm.detailState)
    ensures vm.transactionRepo.db.rows ==
      Upsert(DeleteById(Dao.Delete(old(vm.transactionRepo.db.rows), swiped), id), swiped)
  {
    vm.DeleteTransaction(swiped);
    vm.DeleteByID(id);
    vm.UndoTransactionDeletion();
  }
}
