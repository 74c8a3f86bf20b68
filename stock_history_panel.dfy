/** The stock history screen: two selections, an item name and a
    transaction type, decide which query of the movement log fills the
    table, and each record becomes one table row. */
module StockHistory {
  import opened Wrappers
  import opened JavaNumbers
  import opened Seqs
  import ItemDao
  import opened StockTransactionEntity
  import opened StockTransactionDao

  /** The first entry of the item list. */
  const ALL_ITEMS: string := "All Items"
  /** The first entry of the type list. */
  const ALL_TYPES: string := "All"
  /** The cell text of an absent price or reference. */
  const ABSENT: string := "-"
  const PRICE_PREFIX: string := "Rs."

  /** Which of the log's queries `filterTransactions` runs. */
  datatype Query =
    | FindAllQuery
    | ByItemQuery(itemId: nat)
    | ByTypeQuery(transactionType: string)
    | ByItemAndTypeQuery(itemId: nat, transactionType: string)

  /** A selection names one item or type rather than all of them. */
  predicate Specific(selection: Option<string>, all: string)
  {
    selection.Some? && selection.value != all
  }

  /** The decision of `filterTransactions`. A specific item that is found
      narrows to that item, and further to a specific type; a specific
      item that is not found lists everything, whatever the type; with all
      items, a specific type narrows to that type. */
  function ChooseQuery(items: seq<ItemDao.ItemRow>, selectedItem: Option<string>, selectedType: Option<string>)
    : (q: Query)
    ensures q.ByItemQuery? || q.ByItemAndTypeQuery? ==>
      Specific(selectedItem, ALL_ITEMS) && ItemDao.FindByName(items, selectedItem.value).Some? &&
      q.itemId == ItemDao.FindByName(items, selectedItem.value).value.id
    ensures q.ByTypeQuery? || q.ByItemAndTypeQuery? ==>
      Specific(selectedType, ALL_TYPES) && q.transactionType == selectedType.value
  {
    if Specific(selectedItem, ALL_ITEMS) then
      match ItemDao.FindByName(items, selectedItem.value)
      case Some(item) =>
        if Specific(selectedType, ALL_TYPES) then ByItemAndTypeQuery(item.id, selectedType.value)
        else ByItemQuery(item.id)
      case None => FindAllQuery
    else if Specific(selectedType, ALL_TYPES) then ByTypeQuery(selectedType.value)
    else FindAllQuery
  }

  /** The condition each query keeps records by. */
  function Keeps(q: Query): TransactionRow -> bool
  {
    match q
    case FindAllQuery => (r: TransactionRow) => true
    case ByItemQuery(itemId) => TxOfItem(itemId)
    case ByTypeQuery(transactionType) => TxOfType(transactionType)
    case ByItemAndTypeQuery(itemId, transactionType) => TxOfItemAndType(itemId, transactionType)
  }

  /** The records a query returns. */
  function Run(q: Query, rows: seq<TransactionRow>): seq<TransactionRow>
  {
    match q
    case FindAllQuery => FindAll(rows)
    case ByItemQuery(itemId) => FindByItem(rows, itemId)
    case ByTypeQuery(transactionType) => FindByType(rows, transactionType)
    case ByItemAndTypeQuery(itemId, transactionType) => FindByItemAndType(rows, itemId, transactionType)
  }

  /** One table row: item, type, quantity, the two price cells and the
      reference cell. */
  datatype TxCells = TxCells(
    itemId: nat,
    transactionType: string,
    quantity: int,
    buyPrice: string,
    sellPrice: string,
    batchReference: string)

  /** `"Rs.%.2f"` of a present price, "-" of an absent one. */
  function PriceCell(price: Option<real>): string
  {
    if price.Some? then PRICE_PREFIX + FormatFixed2(price.value) else ABSENT
  }

  function CellsOf(t: StockTransaction): TxCells
  {
    TxCells(t.itemId, t.transactionType, t.quantity, PriceCell(t.buyPrice), PriceCell(t.sellPrice),
            if t.batchReference.Some? then t.batchReference.value else ABSENT)
  }

  /** The rows `displayTransactions` adds for the records, in order. */
  function Table(transactions: seq<TransactionRow>): seq<TxCells>
  {
    if |transactions| == 0 then []
    else Table(transactions[..|transactions| - 1]) + [CellsOf(transactions[|transactions| - 1].tx)]
  }

  class StockHistoryPanel {
    var selectedItem: Option<string>
    var selectedType: Option<string>
    /** The rows of the table. */
    var shown: seq<TxCells>

    /** The panel as built: both selections on "all", then
        `loadAllTransactions`. */
    constructor (log: TransactionLog)
      ensures selectedItem == Some(ALL_ITEMS) && selectedType == Some(ALL_TYPES)
      ensures shown == Table(FindAll(log.rows))
    {
      selectedItem := Some(ALL_ITEMS);
      selectedType := Some(ALL_TYPES);
      shown := [];
      new;
      LoadAllTransactions(log);
    }

    /** `displayTransactions`: appends one row per record, in the order
        given. */
    method DisplayTransactions(transactions: seq<TransactionRow>)
      modifies this`shown
      ensures shown == old(shown) + Table(transactions)
    {
      var i := 0;
      while i < |transactions|
        invariant 0 <= i <= |transactions|
        invariant shown == old(shown) + Table(transactions[..i])
      {
        assert transactions[..i + 1][..i] == transactions[..i];
        shown := shown + [CellsOf(transactions[i].tx)];
        i := i + 1;
      }
      assert transactions[..i] == transactions;
    }

    /** `filterTransactions`: empties the table and fills it from the
        query the two selections choose. */
    method FilterTransactions(items: ItemDao.ItemStore, log: TransactionLog)
      modifies this`shown
      ensures shown == Table(Run(ChooseQuery(items.rows, selectedItem, selectedType), log.rows))
    {
      shown := [];
      var q := ChooseQuery(items.rows, selectedItem, selectedType);
      var transactions := Run(q, log.rows);
      DisplayTransactions(transactions);
    }

    /** `loadAllTransactions`: empties the table and lists every record,
        newest first. */
    method LoadAllTransactions(log: TransactionLog)
      modifies this`shown
      ensures shown == Table(FindAll(log.rows))
    {
      shown := [];
      DisplayTransactions(FindAll(log.rows));
    }

    /** `resetFilters`: both selections back to "all", then every record. */
    method ResetFilters(log: TransactionLog)
      modifies this`selectedItem, this`selectedType, this`shown
      ensures selectedItem == Some(ALL_ITEMS) && selectedType == Some(ALL_TYPES)
      ensures shown == Table(FindAll(log.rows))
    {
      selectedItem := Some(ALL_ITEMS);
      selectedType := Some(ALL_TYPES);
      LoadAllTransactions(log);
    }
  }

  // ---------------------------------------------------------------------
  // Properties of the decision and the table

  /** Whatever is chosen, the table lists exactly the records the chosen
      condition keeps, in the order `findAll` lists them (newest first). */
  lemma ChosenIsFilteredFindAll(q: Query, rows: seq<TransactionRow>)
    ensures Run(q, rows) == Filter(Keeps(q), FindAll(rows))
    ensures forall r :: r in Run(q, rows) <==> r in rows && Keeps(q)(r)
  {
    QueryContents(rows, Keeps(q));
    match q
    case FindAllQuery =>
      FilterAll(Keeps(q), FindAll(rows));
      FindAllSortedPermutation(rows);
      forall r ensures r in FindAll(rows) <==> r in rows {
        assert r in multiset(FindAll(rows)) <==> r in multiset(rows);
      }
    case ByItemQuery(itemId) =>
    case ByTypeQuery(transactionType) =>
    case ByItemAndTypeQuery(itemId, transactionType) =>
  }

  /** The table has one row per record, and row `i` shows record `i`. */
  lemma {:induction false} TableRows(transactions: seq<TransactionRow>)
    ensures |Table(transactions)| == |transactions|
    ensures forall i :: 0 <= i < |transactions| ==> Table(transactions)[i] == CellsOf(transactions[i].tx)
    decreases |transactions|
  {
    if |transactions| > 0 {
      TableRows(transactions[..|transactions| - 1]);
    }
  }

  /** "All Items" with "All" lists everything. */
  lemma AllSelectionsListEverything(items: seq<ItemDao.ItemRow>, selectedType: Option<string>)
    requires !Specific(selectedType, ALL_TYPES)
    ensures ChooseQuery(items, Some(ALL_ITEMS), selectedType) == FindAllQuery
    ensures ChooseQuery(items, None, selectedType) == FindAllQuery
  {
  }

  /** An item name that is not stored lists everything and ignores the
      selected type. */
  lemma UnknownItemListsEverything(items: seq<ItemDao.ItemRow>, itemName: string, selectedType: Option<string>)
    requires itemName != ALL_ITEMS
    requires ItemDao.FindByName(items, itemName).None?
    ensures ChooseQuery(items, Some(itemName), selectedType) == FindAllQuery
  {
  }

  /** A stored item narrows the listing to its records, and a specific
      type narrows it further, to the records that the item query and the
      type query both list. */
  lemma KnownItemNarrows(items: seq<ItemDao.ItemRow>, rows: seq<TransactionRow>, itemName: string,
                         selectedType: Option<string>)
    requires itemName != ALL_ITEMS
    requires ItemDao.FindByName(items, itemName).Some?
    ensures var id := ItemDao.FindByName(items, itemName).value.id;
      forall r :: r in Run(ChooseQuery(items, Some(itemName), selectedType), rows) <==>
        r in rows && r.tx.itemId == id &&
        (Specific(selectedType, ALL_TYPES) ==> r.tx.transactionType == selectedType.value)
  {
    ChosenIsFilteredFindAll(ChooseQuery(items, Some(itemName), selectedType), rows);
  }

  /** With all items selected, a specific type lists exactly the records of
      that type. */
  lemma TypeOnlyNarrows(items: seq<ItemDao.ItemRow>, rows: seq<TransactionRow>, transactionType: string)
    requires transactionType != ALL_TYPES
    ensures forall r :: r in Run(ChooseQuery(items, Some(ALL_ITEMS), Some(transactionType)), rows) <==>
      r in rows && r.tx.transactionType == transactionType
  {
    ChosenIsFilteredFindAll(ChooseQuery(items, Some(ALL_ITEMS), Some(transactionType)), rows);
  }

  /** A price cell is "-" exactly when the price is absent; a reference
      cell shows the reference, or "-" when there is none. */
  lemma AbsentShownAsDash(t: StockTransaction)
    ensures CellsOf(t).buyPrice == ABSENT <==> t.buyPrice.None?
    ensures CellsOf(t).sellPrice == ABSENT <==> t.sellPrice.None?
    ensures t.batchReference.None? ==> CellsOf(t).batchReference == ABSENT
    ensures t.batchReference.Some? ==> CellsOf(t).batchReference == t.batchReference.value
  {
    if t.buyPrice.Some? {
      assert |CellsOf(t).buyPrice| > |ABSENT|;
    }
    if t.sellPrice.Some? {
      assert |CellsOf(t).sellPrice| > |ABSENT|;
    }
  }
}
