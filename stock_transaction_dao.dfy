/** The stock movement log. Records are only ever appended; every query
    filters the log and lists the newest record first. */
module StockTransactionDao {
  import opened Wrappers
  import opened Seqs
  import opened StockTransactionEntity

  /** A saved record with the identity the database assigned. */
  datatype TransactionRow = TransactionRow(id: nat, tx: StockTransaction)

  /** `ORDER BY st.transactionDate DESC`. */
  predicate NewestFirst(a: TransactionRow, b: TransactionRow)
  {
    a.tx.transactionDate >= b.tx.transactionDate
  }

  /** `st.item = :item`. */
  function TxOfItem(itemId: nat): TransactionRow -> bool
  {
    (r: TransactionRow) => r.tx.itemId == itemId
  }

  /** `st.transactionType = :type`. */
  function TxOfType(transactionType: string): TransactionRow -> bool
  {
    (r: TransactionRow) => r.tx.transactionType == transactionType
  }

  /** `st.item = :item AND st.transactionType = :type`. */
  function TxOfItemAndType(itemId: nat, transactionType: string): TransactionRow -> bool
  {
    (r: TransactionRow) => r.tx.itemId == itemId && r.tx.transactionType == transactionType
  }

  /** `st.transactionDate BETWEEN :start AND :end`, both ends included. */
  function TxBetween(startDate: int, endDate: int): TransactionRow -> bool
  {
    (r: TransactionRow) => startDate <= r.tx.transactionDate <= endDate
  }

  /** `findAll`. */
  function FindAll(rows: seq<TransactionRow>): seq<TransactionRow>
  {
    Sort(NewestFirst, rows)
  }

  /** `findByItem`. */
  function FindByItem(rows: seq<TransactionRow>, itemId: nat): seq<TransactionRow>
  {
    Sort(NewestFirst, Filter(TxOfItem(itemId), rows))
  }

  /** `findByType`. */
  function FindByType(rows: seq<TransactionRow>, transactionType: string): seq<TransactionRow>
  {
    Sort(NewestFirst, Filter(TxOfType(transactionType), rows))
  }

  /** `findByDateRange`. */
  function FindByDateRange(rows: seq<TransactionRow>, startDate: int, endDate: int): seq<TransactionRow>
  {
    Sort(NewestFirst, Filter(TxBetween(startDate, endDate), rows))
  }

  /** `findByItemAndType`. */
  function FindByItemAndType(rows: seq<TransactionRow>, itemId: nat, transactionType: string): seq<TransactionRow>
  {
    Sort(NewestFirst, Filter(TxOfItemAndType(itemId, transactionType), rows))
  }

  class TransactionLog {
    var rows: seq<TransactionRow>
    var nextId: nat

    /** Identities are assigned in increasing order. */
    ghost predicate Valid()
      reads this
    {
      (forall i :: 0 <= i < |rows| ==> rows[i].id < nextId) &&
      (forall i, j :: 0 <= i < j < |rows| ==> rows[i].id < rows[j].id)
    }

    constructor ()
      ensures Valid() && rows == [] && nextId == 0
    {
      rows := [];
      nextId := 0;
    }

    /** `save`: appends exactly one record under a fresh identity; the
        records already in the log stay as they were. */
    method Save(t: StockTransaction) returns (id: nat)
      requires Valid()
      modifies this
      ensures Valid()
      ensures id == old(nextId) && nextId == old(nextId) + 1
      ensures rows == old(rows) + [TransactionRow(id, t)]
      ensures forall k :: 0 <= k < |old(rows)| ==> rows[k] == old(rows)[k]
    {
      id := nextId;
      rows := rows + [TransactionRow(id, t)];
      nextId := nextId + 1;
    }
  }

  // ---------------------------------------------------------------------
  // Properties of the queries

  lemma NewestFirstTotalPreorder()
    ensures TotalPreorder(NewestFirst)
  {
  }

  /** `findAll` lists every record once, newest first. */
  lemma FindAllSortedPermutation(rows: seq<TransactionRow>)
    ensures multiset(FindAll(rows)) == multiset(rows)
    ensures SortedBy(NewestFirst, FindAll(rows))
  {
    NewestFirstTotalPreorder();
    SortPermutation(NewestFirst, rows);
    SortSorted(NewestFirst, rows);
  }

  /** A sorted query lists exactly the records its condition keeps, once
      each, newest first, and in the order `findAll` lists them. */
  lemma QueryContents(rows: seq<TransactionRow>, p: TransactionRow -> bool)
    ensures Sort(NewestFirst, Filter(p, rows)) == Filter(p, FindAll(rows))
    ensures multiset(Sort(NewestFirst, Filter(p, rows))) == multiset(Filter(p, rows))
    ensures SortedBy(NewestFirst, Sort(NewestFirst, Filter(p, rows)))
    ensures forall r :: r in Sort(NewestFirst, Filter(p, rows)) <==> r in rows && p(r)
  {
    var kept := Filter(p, rows);
    var listed := Sort(NewestFirst, kept);
    NewestFirstTotalPreorder();
    FilterSort(NewestFirst, p, rows);
    SortPermutation(NewestFirst, kept);
    SortSorted(NewestFirst, kept);
    FilterIn(p, rows);
    SortIn(NewestFirst, kept);
  }

  /** `findByItem` lists exactly the item's records, in `findAll` order. */
  lemma ByItemContents(rows: seq<TransactionRow>, itemId: nat)
    ensures FindByItem(rows, itemId) == Filter(TxOfItem(itemId), FindAll(rows))
    ensures forall r :: r in FindByItem(rows, itemId) <==> r in rows && r.tx.itemId == itemId
  {
    QueryContents(rows, TxOfItem(itemId));
  }

  /** `findByType` lists exactly the records of that type, in `findAll` order. */
  lemma ByTypeContents(rows: seq<TransactionRow>, transactionType: string)
    ensures FindByType(rows, transactionType) == Filter(TxOfType(transactionType), FindAll(rows))
    ensures forall r :: r in FindByType(rows, transactionType) <==>
      r in rows && r.tx.transactionType == transactionType
  {
    QueryContents(rows, TxOfType(transactionType));
  }

  /** `findByDateRange` keeps a record exactly when its date lies between
      the two bounds, both included. */
  lemma DateRangeInclusive(rows: seq<TransactionRow>, startDate: int, endDate: int)
    ensures forall r :: r in FindByDateRange(rows, startDate, endDate) <==>
      r in rows && startDate <= r.tx.transactionDate <= endDate
    ensures SortedBy(NewestFirst, FindByDateRange(rows, startDate, endDate))
  {
    QueryContents(rows, TxBetween(startDate, endDate));
  }

  /** `findByItemAndType` is `findByItem` restricted to the type, and
      equally `findByType` restricted to the item: the records both list. */
  lemma ItemAndTypeIsIntersection(rows: seq<TransactionRow>, itemId: nat, transactionType: string)
    ensures FindByItemAndType(rows, itemId, transactionType) ==
      Filter(TxOfType(transactionType), FindByItem(rows, itemId))
    ensures FindByItemAndType(rows, itemId, transactionType) ==
      Filter(TxOfItem(itemId), FindByType(rows, transactionType))
    ensures forall r :: r in FindByItemAndType(rows, itemId, transactionType) <==>
      r in FindByItem(rows, itemId) && r in FindByType(rows, transactionType)
  {
    var both := TxOfItemAndType(itemId, transactionType);
    NewestFirstTotalPreorder();
    FilterFilter(TxOfItem(itemId), TxOfType(transactionType), both, rows);
    FilterFilter(TxOfType(transactionType), TxOfItem(itemId), both, rows);
    FilterSort(NewestFirst, TxOfType(transactionType), Filter(TxOfItem(itemId), rows));
    FilterSort(NewestFirst, TxOfItem(itemId), Filter(TxOfType(transactionType), rows));
    QueryContents(rows, both);
    ByItemContents(rows, itemId);
    ByTypeContents(rows, transactionType);
  }

  /** A saved record shows up in every query whose condition it meets, and
      the records already listed stay listed. */
  lemma SaveShowsInQuery(rows: seq<TransactionRow>, row: TransactionRow, p: TransactionRow -> bool)
    ensures forall r :: r in Sort(NewestFirst, Filter(p, rows + [row])) <==>
      (r in Sort(NewestFirst, Filter(p, rows)) || (r == row && p(row)))
  {
    QueryContents(rows, p);
    QueryContents(rows + [row], p);
  }
}
