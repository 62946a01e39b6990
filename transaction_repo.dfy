/** The repository: one-to-one forwarding to the data-access object, plus the
    resolution of the `"Overall"` filter. */
module Repo {
  import opened Wrappers
  import opened Model
  import opened Dao

  class TransactionRepo {
    /** The data-access object of the one database the repository is built over. */
    const db: TransactionDao

    constructor (db: TransactionDao)
      ensures this.db == db
    {
      this.db := db;
    }

    method Insert(transaction: Transaction)
      modifies db
      ensures db.rows == Upsert(old(db.rows), transaction)
    {
      db.InsertTransaction(transaction);
    }

    method Update(transaction: Transaction)
      modifies db
      ensures db.rows == Dao.Update(old(db.rows), transaction)
    {
      db.UpdateTransaction(transaction);
    }

    method Delete(transaction: Transaction)
      modifies db
      ensures db.rows == Dao.Delete(old(db.rows), transaction)
    {
      db.DeleteTransaction(transaction);
    }

    method DeleteByID(id: int)
      modifies db
      ensures db.rows == DeleteById(old(db.rows), id)
    {
      db.DeleteTransactionById(id);
    }

    /** Every row once, newest first. */
    function GetAllTransactions(): (r: seq<Transaction>)
      reads db
      ensures |r| == |db.rows|
      ensures forall t :: t in r <==> IsRow(db.rows, t)
      ensures Distinct(r)
      ensures SortedByCreatedDesc(r)
    {
      Dao.GetAllTransactions(db.rows)
    }

    /** The exact string `"Overall"` selects every row; any other string,
        whatever its case, is taken as a type and selects the rows of exactly
        that type. Either way each row comes once, newest first. */
    function GetAllSingleTransaction(transactionType: string): (r: seq<Transaction>)
      reads db
      ensures |r| == if transactionType == OverallFilter then |db.rows|
        else |KeysOfType(db.rows, db.rows.Keys, transactionType)|
      ensures forall t :: t in r <==>
        IsRow(db.rows, t) && (transactionType == OverallFilter || t.transactionType == transactionType)
      ensures Distinct(r)
      ensures SortedByCreatedDesc(r)
    {
      if transactionType == OverallFilter then GetAllTransactions()
      else Dao.GetAllSingleTransaction(db.rows, transactionType)
    }

    /** The row with that id, if any. */
    function GetByID(id: int): (r: Option<Transaction>)
      reads db
      ensures r.Some? <==> id in db.rows
      ensures r.Some? ==> r.value.id == id && IsRow(db.rows, r.value)
    {
      GetTransactionById(db.rows, id)
    }
  }

  /** The `"Overall"` filter gives the full listing, in every table state. */
  lemma OverallIsEverything(repo: TransactionRepo)
    ensures repo.GetAllSingleTransaction(OverallFilter) == repo.GetAllTransactions()
  {
  }

  /** Any other filter gives the full listing with the other types dropped,
      in the same order: so it is contained in the `"Overall"` result. */
  lemma FilterWithinOverall(repo: TransactionRepo, transactionType: string)
    requires transactionType != OverallFilter
    ensures repo.GetAllSingleTransaction(transactionType) == OfType(repo.GetAllSingleTransaction(OverallFilter), transactionType)
    ensures IsSubsequence(repo.GetAllSingleTransaction(transactionType), repo.GetAllSingleTransaction(OverallFilter))
  {
    TypeQueryIsFilteredListing(repo.db.rows, transactionType);
  }

  /** The `"Income"` filter never yields an `"Expense"` row, and the lower-case
      `"overall"` is a type like any other, not the sentinel. */
  lemma FiltersAreExact(repo: TransactionRepo)
    ensures forall t :: t in repo.GetAllSingleTransaction(IncomeType) ==> t.transactionType != ExpenseType
    ensures forall t :: t in repo.GetAllSingleTransaction("overall") ==> t.transactionType == "overall"
  {
  }
}
