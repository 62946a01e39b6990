/** The transaction record, the only entity of the expense tracker, with the
    order-preserving selections and the sum over lists of records that the
    queries and the dashboard are built from. */
module Model {

  /** The type a record counts as income under. */
  const IncomeType: string := "Income"
  /** The type a record counts as expense under. */
  const ExpenseType: string := "Expense"
  /** The filter that selects every record; it is never a stored type. */
  const OverallFilter: string := "Overall"

  /** One row of the `all_transactions` table. Amounts are exact reals:
      floating-point rounding of the stored `Double` is not modelled. */
  datatype Transaction = Transaction(
    title: string,
    amount: real,
    transactionType: string,
    tag: string,
    date: string,
    note: string,
    createdAt: int,
    id: int)

  /** No record appears twice in `s`. */
  predicate Distinct(s: seq<Transaction>)
  {
    forall i, j :: 0 <= i < j < |s| ==> s[i] != s[j]
  }

  /** `sub` is `s` with some elements dropped and the others kept in order. */
  predicate IsSubsequence(sub: seq<Transaction>, s: seq<Transaction>)
    decreases |s|
  {
    if sub == [] then true
    else if s == [] then false
    else (sub[0] == s[0] && IsSubsequence(sub[1..], s[1..])) || IsSubsequence(sub, s[1..])
  }

  /** The records of `s` whose type is exactly `transactionType`, in the order of `s`. */
  function OfType(s: seq<Transaction>, transactionType: string): (r: seq<Transaction>)
    ensures forall x :: x in r <==> x in s && x.transactionType == transactionType
    ensures IsSubsequence(r, s)
    ensures |r| <= |s|
  {
    if s == [] then []
    else if s[0].transactionType == transactionType then
      var rest := OfType(s[1..], transactionType);
      assert ([s[0]] + rest)[1..] == rest;
      [s[0]] + rest
    else OfType(s[1..], transactionType)
  }

  /** The records of `s` whose type is anything but `transactionType`, in the order of `s`. */
  function NotOfType(s: seq<Transaction>, transactionType: string): (r: seq<Transaction>)
    ensures forall x :: x in r <==> x in s && x.transactionType != transactionType
    ensures IsSubsequence(r, s)
    ensures |r| <= |s|
  {
    if s == [] then []
    else if s[0].transactionType != transactionType then
      var rest := NotOfType(s[1..], transactionType);
      assert ([s[0]] + rest)[1..] == rest;
      [s[0]] + rest
    else NotOfType(s[1..], transactionType)
  }

  /** Filtering a list that starts with `x` keeps `x` in front exactly when it has the type. */
  lemma OfTypeCons(x: Transaction, s: seq<Transaction>, transactionType: string)
    ensures OfType([x] + s, transactionType) ==
      if x.transactionType == transactionType then [x] + OfType(s, transactionType) else OfType(s, transactionType)
  {
    assert ([x] + s)[1..] == s;
  }

  /** The total amount of the records in `s` (Kotlin's `sumOf { it.amount }`). */
  function Sum(s: seq<Transaction>): real
  {
    if s == [] then 0.0 else s[0].amount + Sum(s[1..])
  }

  /** Splitting on a type loses and duplicates nothing: the sizes and the sums
      of the two sides add up to those of `s`. */
  lemma {:induction false} SplitAddsUp(s: seq<Transaction>, transactionType: string)
    ensures |OfType(s, transactionType)| + |NotOfType(s, transactionType)| == |s|
    ensures Sum(OfType(s, transactionType)) + Sum(NotOfType(s, transactionType)) == Sum(s)
  {
    if s != [] {
      SplitAddsUp(s[1..], transactionType);
      var a, b := OfType(s[1..], transactionType), NotOfType(s[1..], transactionType);
      if s[0].transactionType == transactionType {
        assert ([s[0]] + a)[1..] == a;
      } else {
        assert ([s[0]] + b)[1..] == b;
      }
    }
  }

  /** The two sides of a split hold the records of `s`, each once. */
  lemma {:induction false} SplitIsPermutation(s: seq<Transaction>, transactionType: string)
    ensures multiset(OfType(s, transactionType)) + multiset(NotOfType(s, transactionType)) == multiset(s)
  {
    if s != [] {
      var x, tail := s[0], s[1..];
      var a, b := OfType(tail, transactionType), NotOfType(tail, transactionType);
      SplitIsPermutation(tail, transactionType);
      assert s == [x] + tail;
      calc {
        multiset(OfType(s, transactionType)) + multiset(NotOfType(s, transactionType));
        { if x.transactionType == transactionType {
            assert OfType(s, transactionType) == [x] + a && NotOfType(s, transactionType) == b;
          } else {
            assert OfType(s, transactionType) == a && NotOfType(s, transactionType) == [x] + b;
          } }
        multiset{x} + (multiset(a) + multiset(b));
        multiset{x} + multiset(tail);
        multiset([x] + tail);
      }
    }
  }

  /** A list whose records all have one type has nothing of any other type. */
  lemma {:induction false} AllOfOneType(s: seq<Transaction>, transactionType: string)
    requires forall x :: x in s ==> x.transactionType == transactionType
    ensures OfType(s, transactionType) == s
    ensures NotOfType(s, transactionType) == []
  {
    if s != [] {
      AllOfOneType(s[1..], transactionType);
      assert s == [s[0]] + s[1..];
    }
  }

  /** A list with no record of a type has nothing on that side of a split. */
  lemma {:induction false} NoneOfType(s: seq<Transaction>, transactionType: string)
    requires forall x :: x in s ==> x.transactionType != transactionType
    ensures OfType(s, transactionType) == []
    ensures NotOfType(s, transactionType) == s
  {
    if s != [] {
      NoneOfType(s[1..], transactionType);
      assert s == [s[0]] + s[1..];
    }
  }
}
