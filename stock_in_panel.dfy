/** The stock-in screen: for the selected item, a quantity and two prices
    are checked and then recorded twice, as a new batch and as a STOCK_IN
    line of the movement log. */
module StockIn {
  import opened Wrappers
  import opened Text
  import opened JavaNumbers
  import ItemDao
  import opened StockBatchEntity
  import opened StockBatchDao
  import opened StockTransactionEntity
  import opened StockTransactionDao

  /** Why `addStock` stopped. `MalformedNumber` is the NumberFormatException
      of any of the three parses; `BelowCostDeclined` is the user declining
      to sell below the buying price. */
  datatype StockInError =
    | NoItemSelected
    | MissingField
    | MalformedNumber
    | NonPositiveQuantity
    | NonPositiveBuyPrice
    | NonPositiveSellPrice
    | BelowCostDeclined

  /** The three numbers of an accepted form. */
  datatype StockEntry = StockEntry(quantity: int, buyPrice: real, sellPrice: real)

  /** The checks of `addStock` on the trimmed texts, in the order it makes
      them: all three filled in, all three parsed (quantity first), then
      each of them above zero. */
  function CheckStockFields(quantityText: string, buyPriceText: string, sellPriceText: string)
    : (r: Result<StockEntry, StockInError>)
    ensures r.Success? ==>
      r.value.quantity > 0 && r.value.buyPrice > 0.0 && r.value.sellPrice > 0.0 &&
      ParseInt(quantityText) == Success(r.value.quantity) &&
      ParseDecimal(buyPriceText) == Some(r.value.buyPrice) &&
      ParseDecimal(sellPriceText) == Some(r.value.sellPrice)
  {
    if |quantityText| == 0 || |buyPriceText| == 0 || |sellPriceText| == 0 then Failure(MissingField)
    else match (ParseInt(quantityText), ParseDecimal(buyPriceText), ParseDecimal(sellPriceText))
      case (Success(quantity), Some(buyPrice), Some(sellPrice)) =>
        if quantity <= 0 then Failure(NonPositiveQuantity)
        else if buyPrice <= 0.0 then Failure(NonPositiveBuyPrice)
        else if sellPrice <= 0.0 then Failure(NonPositiveSellPrice)
        else Success(StockEntry(quantity, buyPrice, sellPrice))
      case _ => Failure(MalformedNumber)
  }

  /** The refusals of `addStock`, in its order: no selected item, a form
      that fails its checks, and a selling price below the buying price that
      the user does not confirm. `AddStockRefusals` spells out each. */
  function AddStockCheck(selectedItem: Option<nat>, checked: Result<StockEntry, StockInError>, confirm: bool)
    : Outcome<StockInError>
  {
    if selectedItem.None? then Fail(NoItemSelected)
    else if checked.Failure? then Fail(checked.error)
    else if checked.value.sellPrice < checked.value.buyPrice && !confirm then Fail(BelowCostDeclined)
    else Pass
  }

  /** `batchRef.isEmpty() ? null : batchRef`. */
  function Reference(batchRef: string): (r: Option<string>)
    ensures r.None? <==> |batchRef| == 0
    ensures r.Some? ==> r.value == batchRef
  {
    if |batchRef| == 0 then None else Some(batchRef)
  }

  /** The batch row a successful `addStock` stores. */
  function NewBatchRow(id: nat, itemId: nat, e: StockEntry, batchRef: string, now: int): BatchRow
  {
    BatchRow(id, itemId, e.quantity, e.buyPrice, e.sellPrice, now, Reference(batchRef))
  }

  /** The log record a successful `addStock` appends. */
  function StockInRecord(itemId: nat, e: StockEntry, batchRef: string, now: int): StockTransaction
  {
    NewPricedTransaction(itemId, STOCK_IN, e.quantity, Some(e.buyPrice), Some(e.sellPrice),
                         Reference(batchRef), now)
  }

  class StockInPanel {
    /** The identity of the selected item, if any. */
    var selectedItem: Option<nat>
    var quantityText: string
    var buyPriceText: string
    var sellPriceText: string
    var batchRefText: string
    /** The number in the total stock label. */
    var totalStock: int

    constructor ()
      ensures selectedItem.None? && totalStock == 0
      ensures quantityText == [] && buyPriceText == [] && sellPriceText == [] && batchRefText == []
    {
      selectedItem := None;
      quantityText := [];
      buyPriceText := [];
      sellPriceText := [];
      batchRefText := [];
      totalStock := 0;
    }

    /** `updateTotalStock`: the selected item's total, or 0 with none. */
    method UpdateTotalStock(batches: BatchStore)
      modifies this`totalStock
      ensures selectedItem == old(selectedItem)
      ensures selectedItem.None? ==> totalStock == 0
      ensures selectedItem.Some? ==> totalStock == GetTotalQuantity(batches.rows, selectedItem.value)
      ensures selectedItem.Some? && IsInt32(ItemTotal(batches.rows, selectedItem.value)) ==>
        totalStock == ItemTotal(batches.rows, selectedItem.value)
    {
      if selectedItem.Some? {
        totalStock := GetTotalQuantity(batches.rows, selectedItem.value);
      } else {
        totalStock := 0;
      }
    }

    /** `onItemSelected`: looks the chosen name up; a name no longer
        stored leaves no item selected. */
    method OnItemSelected(items: ItemDao.ItemStore, batches: BatchStore, itemName: string)
      modifies this`selectedItem, this`totalStock
      ensures ItemDao.FindByName(items.rows, itemName).None? ==> selectedItem.None? && totalStock == 0
      ensures ItemDao.FindByName(items.rows, itemName).Some? ==>
        selectedItem == Some(ItemDao.FindByName(items.rows, itemName).value.id) &&
        totalStock == GetTotalQuantity(batches.rows, selectedItem.value)
    {
      var found := ItemDao.FindByName(items.rows, itemName);
      selectedItem := if found.Some? then Some(found.value.id) else None;
      UpdateTotalStock(batches);
    }

    /** `addStock`: refuses without a selected item, then checks the form;
        a selling price below the buying price needs the user's `confirm`.
        On success one batch and one STOCK_IN record with the same
        quantity, prices and reference are stored, the item's total rises
        by exactly the quantity, and the form is cleared. Every refusal
        stores nothing and leaves the form as it was. */
    method AddStock(batches: BatchStore, log: TransactionLog, confirm: bool, now: int)
      returns (outcome: Outcome<StockInError>)
      requires batches.Valid() && log.Valid()
      modifies this, batches, log
      ensures batches.Valid() && log.Valid()
      ensures selectedItem == old(selectedItem)
      ensures outcome == AddStockCheck(old(selectedItem), old(Checked()), confirm)
      ensures outcome.Fail? ==>
        batches.rows == old(batches.rows) && log.rows == old(log.rows) &&
        batches.nextId == old(batches.nextId) && log.nextId == old(log.nextId) &&
        totalStock == old(totalStock) && quantityText == old(quantityText) && buyPriceText == old(buyPriceText) &&
        sellPriceText == old(sellPriceText) && batchRefText == old(batchRefText)
      ensures outcome.Pass? ==>
        old(selectedItem).Some? && old(Checked()).Success? &&
        batches.rows == old(batches.rows) +
          [NewBatchRow(old(batches.nextId), old(selectedItem).value, old(Checked()).value, Trim(old(batchRefText)), now)] &&
        log.rows == old(log.rows) +
          [TransactionRow(old(log.nextId), StockInRecord(old(selectedItem).value, old(Checked()).value, Trim(old(batchRefText)), now))]
      ensures outcome.Pass? ==>
        ItemTotal(batches.rows, old(selectedItem).value) ==
          ItemTotal(old(batches.rows), old(selectedItem).value) + old(Checked()).value.quantity
      ensures outcome.Pass? ==>
        quantityText == [] && buyPriceText == [] && sellPriceText == [] && batchRefText == [] &&
        totalStock == GetTotalQuantity(batches.rows, old(selectedItem).value)
    {
      var checked := Checked();
      outcome := AddStockCheck(selectedItem, checked, confirm);
      if outcome.Pass? {
        Record(batches, log, selectedItem.value, checked.value, Trim(batchRefText), now);
      }
    }

    /** The result of the form checks on the trimmed fields. */
    function Checked(): Result<StockEntry, StockInError>
      reads this
    {
      CheckStockFields(Trim(quantityText), Trim(buyPriceText), Trim(sellPriceText))
    }

    /** The writes of a successful `addStock`: the batch, then its log
        record, then `clearForm` and `updateTotalStock`. */
    method Record(batches: BatchStore, log: TransactionLog, itemId: nat, entry: StockEntry,
                  batchRef: string, now: int)
      requires batches.Valid() && log.Valid()
      requires selectedItem == Some(itemId)
      modifies this, batches, log
      ensures batches.Valid() && log.Valid() && selectedItem == Some(itemId)
      ensures batches.rows == old(batches.rows) + [NewBatchRow(old(batches.nextId), itemId, entry, batchRef, now)]
      ensures log.rows == old(log.rows) + [TransactionRow(old(log.nextId), StockInRecord(itemId, entry, batchRef, now))]
      ensures ItemTotal(batches.rows, itemId) == ItemTotal(old(batches.rows), itemId) + entry.quantity
      ensures quantityText == [] && buyPriceText == [] && sellPriceText == [] && batchRefText == []
      ensures totalStock == GetTotalQuantity(batches.rows, itemId)
    {
      StoreAndLog(batches, log, itemId, entry, batchRef, now);
      ClearForm();
      UpdateTotalStock(batches);
    }

    /** `clearForm`: empties the four fields. */
    method ClearForm()
      modifies this`quantityText, this`buyPriceText, this`sellPriceText, this`batchRefText
      ensures quantityText == [] && buyPriceText == [] && sellPriceText == [] && batchRefText == []
      ensures selectedItem == old(selectedItem) && totalStock == old(totalStock)
    {
      quantityText := [];
      buyPriceText := [];
      sellPriceText := [];
      batchRefText := [];
    }
  }

  /** The two saves of a successful `addStock`: the batch, then its
      STOCK_IN record. */
  method StoreAndLog(batches: BatchStore, log: TransactionLog, itemId: nat, entry: StockEntry,
                     batchRef: string, now: int)
    requires batches.Valid() && log.Valid()
    modifies batches, log
    ensures batches.Valid() && log.Valid()
    ensures batches.rows == old(batches.rows) + [NewBatchRow(old(batches.nextId), itemId, entry, batchRef, now)]
    ensures log.rows == old(log.rows) + [TransactionRow(old(log.nextId), StockInRecord(itemId, entry, batchRef, now))]
    ensures ItemTotal(batches.rows, itemId) == ItemTotal(old(batches.rows), itemId) + entry.quantity
  {
    StoreBatch(batches, itemId, entry, batchRef, now);
    var id := log.Save(StockInRecord(itemId, entry, batchRef, now));
  }

  /** `new StockBatch(..)` and `stockBatchDAO.save(batch)`: a new batch is
      never refused, and it raises its item's total by its quantity. */
  method StoreBatch(batches: BatchStore, itemId: nat, entry: StockEntry, batchRef: string, now: int)
    requires batches.Valid()
    modifies batches
    ensures batches.Valid()
    ensures batches.rows == old(batches.rows) + [NewBatchRow(old(batches.nextId), itemId, entry, batchRef, now)]
    ensures ItemTotal(batches.rows, itemId) == ItemTotal(old(batches.rows), itemId) + entry.quantity
  {
    var batch := new StockBatch(itemId, entry.quantity, entry.buyPrice, entry.sellPrice, Reference(batchRef), now);
    var saved := batches.Save(batch);
    assert saved.Pass?;
    ItemTotalAfterAppend(old(batches.rows), NewBatchRow(old(batches.nextId), itemId, entry, batchRef, now), itemId);
  }

  // ---------------------------------------------------------------------
  // Properties of the form checks

  /** Each refusal of `addStock` in its order, and the one way through:
      stock is stored exactly when an item is selected, the form passes its
      checks, and the selling price is not below the buying price unless
      the user confirms. */
  lemma AddStockRefusals(selectedItem: Option<nat>, checked: Result<StockEntry, StockInError>, confirm: bool)
    ensures selectedItem.None? ==> AddStockCheck(selectedItem, checked, confirm) == Fail(NoItemSelected)
    ensures selectedItem.Some? && checked.Failure? ==>
      AddStockCheck(selectedItem, checked, confirm) == Fail(checked.error)
    ensures selectedItem.Some? && checked.Success? &&
            checked.value.sellPrice < checked.value.buyPrice && !confirm ==>
      AddStockCheck(selectedItem, checked, confirm) == Fail(BelowCostDeclined)
    ensures AddStockCheck(selectedItem, checked, confirm).Pass? <==>
      selectedItem.Some? && checked.Success? && (checked.value.sellPrice >= checked.value.buyPrice || confirm)
  {
  }

  /** The form is accepted exactly when all three fields parse and every
      number is above zero. */
  lemma StockFieldsAccepted(quantityText: string, buyPriceText: string, sellPriceText: string)
    ensures CheckStockFields(quantityText, buyPriceText, sellPriceText).Success? <==>
      ParseInt(quantityText).Success? && ParseInt(quantityText).value > 0 &&
      ParseDecimal(buyPriceText).Some? && ParseDecimal(buyPriceText).value > 0.0 &&
      ParseDecimal(sellPriceText).Some? && ParseDecimal(sellPriceText).value > 0.0
  {
  }

  /** A malformed number is reported as such even when another field would
      also be refused for its sign: every parse comes before every sign
      check. */
  lemma ParseBeforeSign(quantityText: string, buyPriceText: string, sellPriceText: string)
    requires |quantityText| > 0 && |buyPriceText| > 0 && |sellPriceText| > 0
    requires ParseDecimal(sellPriceText).None?
    ensures CheckStockFields(quantityText, buyPriceText, sellPriceText) == Failure(MalformedNumber)
  {
  }

  /** A stock-in record carries the batch's quantity, prices and reference. */
  lemma RecordMatchesBatch(id: nat, itemId: nat, e: StockEntry, batchRef: string, now: int)
    ensures var b := NewBatchRow(id, itemId, e, batchRef, now);
      var t := StockInRecord(itemId, e, batchRef, now);
      t.itemId == b.itemId && t.transactionType == STOCK_IN && t.quantity == b.quantity &&
      t.buyPrice == Some(b.buyPrice) && t.sellPrice == Some(b.sellPrice) &&
      t.batchReference == b.batchReference && t.notes.None?
  {
  }
}
