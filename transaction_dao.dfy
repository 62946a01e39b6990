/** The `all_transactions` table and the seven operations of its data-access
    object: four mutations (upsert, update, delete by record, delete by id)
    and three selects (all rows, rows of one type, the row with an id). */
module Dao {
  import opened Wrappers
  import opened Model

  /** The table: each row stored under its own primary key. */
  type Table = rows: map<int, Transaction> | forall k :: k in rows ==> rows[k].id == k
    witness map[]

  /** `t` is in the table, stored under its key. */
  predicate IsRow(rows: Table, t: Transaction)
  {
    t.id in rows && rows[t.id] == t
  }

  /** Newest first: `createdAt` never increases along `s`. */
  predicate SortedByCreatedDesc(s: seq<Transaction>)
  {
    forall i, j :: 0 <= i < j < |s| ==> s[i].createdAt >= s[j].createdAt
  }

  /** The order in which the selects return rows: `createdAt` descending, as
      the SQL says; rows created at the same instant, which the SQL leaves in
      no particular order, come by ascending key. */
  predicate Before(rows: Table, k: int, j: int)
    requires k in rows && j in rows
  {
    rows[k].createdAt > rows[j].createdAt || (rows[k].createdAt == rows[j].createdAt && k <= j)
  }

  lemma {:induction false} FirstExists(rows: Table, keys: set<int>)
    requires keys != {} && keys <= rows.Keys
    ensures exists k :: k in keys && forall j :: j in keys ==> Before(rows, k, j)
    decreases keys
  {
    var x :| x in keys;
    if keys == {x} {
      assert forall j :: j in keys ==> Before(rows, x, j);
    } else {
      FirstExists(rows, keys - {x});
      var y :| y in keys - {x} && forall j :: j in keys - {x} ==> Before(rows, y, j);
      if Before(rows, x, y) {
        forall j | j in keys ensures Before(rows, x, j) {
          if j != x { assert Before(rows, y, j); }
        }
      } else {
        assert forall j :: j in keys ==> Before(rows, y, j);
      }
    }
  }

  /** The key, among `keys`, of the row that comes first. */
  function First(rows: Table, keys: set<int>): (k: int)
    requires keys != {} && keys <= rows.Keys
    ensures k in keys && forall j :: j in keys ==> Before(rows, k, j)
  {
    FirstExists(rows, keys);
    var k :| k in keys && forall j :: j in keys ==> Before(rows, k, j);
    k
  }

  /** The rows stored under `keys`, newest first. */
  function Listing(rows: Table, keys: set<int>): (r: seq<Transaction>)
    requires keys <= rows.Keys
    ensures |r| == |keys|
    ensures forall t :: t in r <==> t.id in keys && IsRow(rows, t)
    ensures Distinct(r)
    ensures SortedByCreatedDesc(r)
    decreases keys
  {
    if keys == {} then []
    else
      var k := First(rows, keys);
      var rest := Listing(rows, keys - {k});
      assert forall i :: 0 <= i < |rest| ==> rows[k].createdAt >= rest[i].createdAt by {
        forall i | 0 <= i < |rest| ensures rows[k].createdAt >= rest[i].createdAt {
          assert rest[i] in rest;
          assert Before(rows, k, rest[i].id);
        }
      }
      assert rows[k] !in rest;
      [rows[k]] + rest
  }

  /** The keys, among `keys`, of the rows whose type is exactly `transactionType`. */
  function KeysOfType(rows: Table, keys: set<int>, transactionType: string): set<int>
    requires keys <= rows.Keys
  {
    set k | k in keys && rows[k].transactionType == transactionType
  }

  /** `SELECT * FROM all_transactions ORDER BY createdAt DESC`: every row once, newest first. */
  function GetAllTransactions(rows: Table): (r: seq<Transaction>)
    ensures |r| == |rows|
    ensures forall t :: t in r <==> IsRow(rows, t)
    ensures Distinct(r)
    ensures SortedByCreatedDesc(r)
  {
    Listing(rows, rows.Keys)
  }

  /** `SELECT * FROM all_transactions WHERE transactionType == :transactionType
      ORDER BY createdAt DESC`: exactly the rows of that type (exact,
      case-sensitive match), each once, newest first. */
  function GetAllSingleTransaction(rows: Table, transactionType: string): (r: seq<Transaction>)
    ensures |r| == |KeysOfType(rows, rows.Keys, transactionType)|
    ensures forall t :: t in r <==> IsRow(rows, t) && t.transactionType == transactionType
    ensures Distinct(r)
    ensures SortedByCreatedDesc(r)
  {
    Listing(rows, KeysOfType(rows, rows.Keys, transactionType))
  }

  /** `SELECT * FROM all_transactions WHERE id == :id`: the row with that id, if any. */
  function GetTransactionById(rows: Table, id: int): (r: Option<Transaction>)
    ensures r.Some? <==> id in rows
    ensures r.Some? ==> r.value.id == id && IsRow(rows, r.value)
  {
    if id in rows then Some(rows[id]) else None
  }

  /** `@Upsert` of a record whose id is already assigned: afterwards the row under
      `t`'s key is `t`; every other row is as before. A record still carrying the
      auto-generate placeholder gets a fresh key from Room, which is not modelled. */
  function Upsert(rows: Table, t: Transaction): (r: Table)
    ensures IsRow(r, t)
    ensures r.Keys == rows.Keys + {t.id}
    ensures forall k :: k in rows && k != t.id ==> r[k] == rows[k]
  {
    rows[t.id := t]
  }

  /** `@Update`: replaces the row with `t`'s key when there is one (all columns,
      `createdAt` included); never adds a row; touches no other row. */
  function Update(rows: Table, t: Transaction): (r: Table)
    ensures r.Keys == rows.Keys
    ensures t.id in rows ==> IsRow(r, t)
    ensures forall k :: k in rows && k != t.id ==> r[k] == rows[k]
  {
    if t.id in rows then rows[t.id := t] else rows
  }

  /** `DELETE FROM all_transactions WHERE id = :id`: removes that row, if any, and no other. */
  function DeleteById(rows: Table, id: int): (r: Table)
    ensures r.Keys == rows.Keys - {id}
    ensures forall k :: k in r ==> r[k] == rows[k]
  {
    rows - {id}
  }

  /** `@Delete`: matches on the primary key alone, so it is deleting by `t`'s id,
      whatever the record's other fields hold. */
  function Delete(rows: Table, t: Transaction): (r: Table)
    ensures r == DeleteById(rows, t.id)
  {
    rows - {t.id}
  }

  /** The first key of a set is also the first key of any subset holding it. */
  lemma FirstOfSubset(rows: Table, keys: set<int>, sub: set<int>)
    requires keys != {} && keys <= rows.Keys && sub <= keys && First(rows, keys) in sub
    ensures First(rows, sub) == First(rows, keys)
  {
    var k, f := First(rows, keys), First(rows, sub);
    assert Before(rows, f, k) && Before(rows, k, f);
  }

  /** The type query is the full listing with the other types dropped: a
      subsequence of it, in the same order. */
  lemma {:induction false} ListingOfType(rows: Table, keys: set<int>, transactionType: string)
    requires keys <= rows.Keys
    ensures Listing(rows, KeysOfType(rows, keys, transactionType)) == OfType(Listing(rows, keys), transactionType)
    decreases keys
  {
    if keys != {} {
      var k := First(rows, keys);
      var rest := Listing(rows, keys - {k});
      var p := KeysOfType(rows, keys, transactionType);
      ListingOfType(rows, keys - {k}, transactionType);
      assert Listing(rows, keys) == [rows[k]] + rest;
      OfTypeCons(rows[k], rest, transactionType);
      if rows[k].transactionType == transactionType {
        FirstOfSubset(rows, keys, p);
        assert p - {k} == KeysOfType(rows, keys - {k}, transactionType);
        assert Listing(rows, p) == [rows[k]] + Listing(rows, p - {k});
      } else {
        assert p == KeysOfType(rows, keys - {k}, transactionType);
      }
    }
  }

  /** Every type-filtered result lies inside the full listing, in its order. */
  lemma TypeQueryIsFilteredListing(rows: Table, transactionType: string)
    ensures GetAllSingleTransaction(rows, transactionType) == OfType(GetAllTransactions(rows), transactionType)
    ensures IsSubsequence(GetAllSingleTransaction(rows, transactionType), GetAllTransactions(rows))
  {
    ListingOfType(rows, rows.Keys, transactionType);
  }

  /** An upserted record is found again by its id. */
  lemma UpsertThenGet(rows: Table, t: Transaction)
    ensures GetTransactionById(Upsert(rows, t), t.id) == Some(t)
  {
  }

  /** Deleting twice leaves the same table as deleting once; deleting an
      absent id changes nothing. */
  lemma DeleteByIdIdempotent(rows: Table, id: int)
    ensures DeleteById(DeleteById(rows, id), id) == DeleteById(rows, id)
    ensures id !in rows ==> DeleteById(rows, id) == rows
  {
  }

  /** Re-inserting a deleted record restores the table exactly when the record
      was the stored row; a stale copy, or a record that was never stored,
      leaves a different table. */
  lemma DeleteThenUpsert(rows: Table, t: Transaction)
    ensures Upsert(Delete(rows, t), t) == rows <==> IsRow(rows, t)
  {
    if IsRow(rows, t) {
      var r := Upsert(Delete(rows, t), t);
      assert r.Keys == rows.Keys;
      assert forall k :: k in r ==> r[k] == rows[k];
    }
  }

  /** The data-access object over the one table. */
  class TransactionDao {
    var rows: Table

    constructor ()
      ensures rows == map[]
    {
      rows := map[];
    }

    method InsertTransaction(transaction: Transaction)
      modifies this
      ensures rows == Upsert(old(rows), transaction)
    {
      rows := Upsert(rows, transaction);
    }

    method UpdateTransaction(transaction: Transaction)
      modifies this
      ensures rows == Update(old(rows), transaction)
    {
      rows := Update(rows, transaction);
    }

    method DeleteTransaction(transaction: Transaction)
      modifies this
      ensures rows == Delete(old(rows), transaction)
    {
      rows := Delete(rows, transaction);
    }

    method DeleteTransactionById(id: int)
      modifies this
      ensures rows == DeleteById(old(rows), id)
    {
      rows := DeleteById(rows, id);
    }
  }
}
