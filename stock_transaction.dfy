/** One line of the stock movement log. A record is built by one of two
    constructors and saved; nothing changes it afterwards, so it is a value. */
module StockTransactionEntity {
  import opened Wrappers

  const STOCK_IN: string := "STOCK_IN"
  const STOCK_OUT: string := "STOCK_OUT"

  datatype StockTransaction = StockTransaction(
    itemId: nat,
    transactionType: string,
    quantity: int,
    buyPrice: Option<real>,
    sellPrice: Option<real>,
    batchReference: Option<string>,
    /** Seconds since the epoch. */
    transactionDate: int,
    notes: Option<string>)

  /** `StockTransaction(item, transactionType, quantity)`, the shape of a
      stock-out record: no prices, no reference, no notes, dated `now`. */
  function NewTransaction(itemId: nat, transactionType: string, quantity: int, now: int): (t: StockTransaction)
    ensures t.itemId == itemId && t.transactionType == transactionType && t.quantity == quantity
    ensures t.buyPrice.None? && t.sellPrice.None? && t.batchReference.None?
    ensures t.notes.None? && t.transactionDate == now
  {
    StockTransaction(itemId, transactionType, quantity, None, None, None, now, None)
  }

  /** `StockTransaction(item, transactionType, quantity, buyPrice,
      sellPrice, batchReference)`, the shape of a stock-in record: the
      three-argument constructor, then the prices and the reference. */
  function NewPricedTransaction(itemId: nat, transactionType: string, quantity: int,
                                buyPrice: Option<real>, sellPrice: Option<real>,
                                batchReference: Option<string>, now: int): (t: StockTransaction)
    ensures t.itemId == itemId && t.transactionType == transactionType && t.quantity == quantity
    ensures t.buyPrice == buyPrice && t.sellPrice == sellPrice && t.batchReference == batchReference
    ensures t.notes.None? && t.transactionDate == now
  {
    var t := NewTransaction(itemId, transactionType, quantity, now);
    t.(buyPrice := buyPrice, sellPrice := sellPrice, batchReference := batchReference)
  }

  /** The two constructors differ only in the prices and the reference:
      with those absent they build the same record. */
  lemma PricedWithoutPricesIsPlain(itemId: nat, transactionType: string, quantity: int, now: int)
    ensures NewPricedTransaction(itemId, transactionType, quantity, None, None, None, now) ==
            NewTransaction(itemId, transactionType, quantity, now)
  {
  }
}
