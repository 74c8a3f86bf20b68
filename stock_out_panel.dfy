/** The stock-out screen: the selected item's batches with stock left are
    listed with their total, and using some units of one of them lowers
    that batch and logs a STOCK_OUT record. */
module StockOut {
  import opened Wrappers
  import opened Text
  import opened JavaNumbers
  import opened Seqs
  import ItemDao
  import opened StockBatchEntity
  import opened StockBatchDao
  import opened StockTransactionEntity
  import opened StockTransactionDao

  /** Why `useBatch` stopped. `RowOutOfRange` and `Cancelled` (no input or
      blank input) end it silently. `LogRefused` is the log refusing a
      record without an item (its `item_id` column is not nullable), which
      happens after the batch has already been lowered. */
  datatype StockOutError =
    | RowOutOfRange
    | Cancelled
    | MalformedNumber
    | NonPositiveQuantity
    | ExceedsBatch
    | LogRefused

  /** The checks of `useBatch` on the dialog's answer against the units
      the batch holds. */
  function CheckUse(input: Option<string>, available: int): (r: Result<int, StockOutError>)
    ensures r.Success? ==>
      input.Some? && ParseInt(Trim(input.value)) == Success(r.value) && 0 < r.value <= available
  {
    if input.None? || |Trim(input.value)| == 0 then Failure(Cancelled)
    else match ParseInt(Trim(input.value))
      case Failure(_) => Failure(MalformedNumber)
      case Success(qtyToUse) =>
        if qtyToUse <= 0 then Failure(NonPositiveQuantity)
        else if qtyToUse > available then Failure(ExceedsBatch)
        else Success(qtyToUse)
  }

  /** A listed batch after `reduceQuantity` took `qtyToUse` units from it. */
  function Reduced(batch: BatchRow, qtyToUse: int): BatchRow
  {
    batch.(quantity := Wrap32(batch.quantity - qtyToUse))
  }

  /** The table after `reduceQuantity` merged the lowered batch: it
      overwrites the row with the batch's identity, or is inserted as a new
      row when that row has gone. */
  function AfterReduce(rows: seq<BatchRow>, nextId: nat, batch: BatchRow, qtyToUse: int): seq<BatchRow>
  {
    MergeRow(rows, nextId, Reduced(batch, qtyToUse))
  }

  /** The identity counter after that merge: it moves on only when the
      lowered batch had to be inserted as a new row. */
  function AfterReduceNextId(rows: seq<BatchRow>, nextId: nat, batch: BatchRow): nat
  {
    if IndexOfId(rows, batch.id).Some? then nextId else nextId + 1
  }

  /** The entity a query hands out for a stored row. */
  method Detach(r: BatchRow) returns (batch: StockBatch)
    ensures fresh(batch) && batch.id == Some(r.id) && RowOf(r.id, batch) == r
  {
    batch := new StockBatch(r.itemId, r.quantity, r.buyPrice, r.sellPrice, r.batchReference, r.batchDate);
    batch.id := Some(r.id);
  }

  /** `stockBatchDAO.reduceQuantity(batch, qtyToUse)` on a listed batch that
      holds at least `qtyToUse` units: never refused. */
  method ReduceListed(batches: BatchStore, listed: BatchRow, qtyToUse: int)
    requires batches.Valid()
    requires qtyToUse <= listed.quantity
    modifies batches
    ensures batches.Valid()
    ensures batches.rows == AfterReduce(old(batches.rows), old(batches.nextId), listed, qtyToUse)
    ensures batches.nextId == AfterReduceNextId(old(batches.rows), old(batches.nextId), listed)
  {
    var batch := Detach(listed);
    var reduced := batches.ReduceQuantity(batch, qtyToUse);
    assert RowOf(listed.id, batch) == Reduced(listed, qtyToUse);
    assert RowOf(old(batches.nextId), batch) == Reduced(listed, qtyToUse).(id := old(batches.nextId));
  }

  class StockOutPanel {
    /** The identity of the selected item, if any. */
    var selectedItem: Option<nat>
    /** The batches last listed for an item; kept when no item is selected. */
    var currentBatches: seq<BatchRow>
    /** The rows of the table. */
    var shown: seq<BatchRow>
    /** The number in the total stock label. */
    var totalStock: int

    /** `currentBatches` is `null` until the first `loadBatches`; nothing
        reads it before then, so it starts here as the empty list. */
    constructor ()
      ensures selectedItem.None? && currentBatches == [] && shown == [] && totalStock == 0
    {
      selectedItem := None;
      currentBatches := [];
      shown := [];
      totalStock := 0;
    }

    /** `loadBatches`: with no item selected the table is emptied and the
        label reads 0; otherwise the item's available batches are listed
        and the label shows their quantities summed in `int` arithmetic. */
    method LoadBatches(batches: BatchStore)
      modifies this`currentBatches, this`shown, this`totalStock
      ensures selectedItem.None? ==> shown == [] && totalStock == 0 && currentBatches == old(currentBatches)
      ensures selectedItem.Some? ==>
        currentBatches == FindAvailableBatches(batches.rows, selectedItem.value) &&
        shown == currentBatches &&
        totalStock == Wrap32(SumInt(currentBatches, Quantity))
    {
      shown := [];
      if selectedItem.None? {
        totalStock := 0;
        return;
      }
      var listed := FindAvailableBatches(batches.rows, selectedItem.value);
      var totalQty := 0;
      var i := 0;
      while i < |listed|
        invariant 0 <= i <= |listed|
        invariant totalQty == Wrap32(SumInt(listed[..i], Quantity))
        invariant shown == listed[..i]
      {
        assert listed[..i + 1] == listed[..i] + [listed[i]];
        SumIntSnoc(listed[..i], listed[i], Quantity);
        Wrap32Accumulate(SumInt(listed[..i], Quantity), listed[i].quantity);
        totalQty := Wrap32(totalQty + listed[i].quantity);
        shown := shown + [listed[i]];
        i := i + 1;
      }
      assert listed[..i] == listed;
      currentBatches := listed;
      totalStock := totalQty;
    }

    /** `onItemSelected`: looks the chosen name up and lists its batches; a
        name no longer stored leaves no item selected. */
    method OnItemSelected(items: ItemDao.ItemStore, batches: BatchStore, itemName: string)
      modifies this`selectedItem, this`currentBatches, this`shown, this`totalStock
      ensures ItemDao.FindByName(items.rows, itemName).None? ==> selectedItem.None? && shown == [] && totalStock == 0
      ensures ItemDao.FindByName(items.rows, itemName).Some? ==>
        selectedItem == Some(ItemDao.FindByName(items.rows, itemName).value.id) &&
        currentBatches == FindAvailableBatches(batches.rows, selectedItem.value) &&
        totalStock == Wrap32(SumInt(currentBatches, Quantity))
    {
      var found := ItemDao.FindByName(items.rows, itemName);
      selectedItem := if found.Some? then Some(found.value.id) else None;
      LoadBatches(batches);
    }

    /** `useBatch(row)`: a row outside the listed batches is ignored; the
        answer must be a whole number above zero and no more than the
        listed batch holds. Then the batch is lowered by that many units, a
        STOCK_OUT record of them is logged for the selected item, and the
        batches are listed again; the result is the "Remaining" figure,
        which is the batch's new quantity. Every refusal before the
        lowering changes nothing. */
    method UseBatch(batches: BatchStore, log: TransactionLog, row: int, input: Option<string>, now: int)
      returns (r: Result<int, StockOutError>)
      requires batches.Valid() && log.Valid()
      modifies this`currentBatches, this`shown, this`totalStock, batches, log
      ensures batches.Valid() && log.Valid()
      ensures selectedItem == old(selectedItem)
      ensures !(0 <= row < |old(currentBatches)|) ==> r == Failure(RowOutOfRange)
      ensures 0 <= row < |old(currentBatches)| && CheckUse(input, old(currentBatches)[row].quantity).Failure? ==>
        r == Failure(CheckUse(input, old(currentBatches)[row].quantity).error)
      ensures r.Failure? && r.error != LogRefused ==>
        batches.rows == old(batches.rows) && log.rows == old(log.rows) &&
        batches.nextId == old(batches.nextId) && log.nextId == old(log.nextId) &&
        currentBatches == old(currentBatches) && shown == old(shown) && totalStock == old(totalStock)
      ensures r.Success? || (r.Failure? && r.error == LogRefused) ==>
        0 <= row < |old(currentBatches)| &&
        CheckUse(input, old(currentBatches)[row].quantity).Success? &&
        batches.rows == AfterReduce(old(batches.rows), old(batches.nextId), old(currentBatches)[row],
                                    CheckUse(input, old(currentBatches)[row].quantity).value) &&
        batches.nextId == AfterReduceNextId(old(batches.rows), old(batches.nextId), old(currentBatches)[row])
      ensures r.Success? || (r.Failure? && r.error == LogRefused) ==>
        (r.Success? <==> old(selectedItem).Some?)
      ensures r.Failure? && r.error == LogRefused ==>
        log.rows == old(log.rows) && log.nextId == old(log.nextId) &&
        shown == old(shown) && totalStock == old(totalStock) &&
        currentBatches == old(currentBatches)[row := Reduced(old(currentBatches)[row],
                                                             CheckUse(input, old(currentBatches)[row].quantity).value)]
      ensures r.Success? ==>
        r.value == Reduced(old(currentBatches)[row], CheckUse(input, old(currentBatches)[row].quantity).value).quantity &&
        log.rows == old(log.rows) +
          [TransactionRow(old(log.nextId),
                          NewTransaction(old(selectedItem).value, STOCK_OUT,
                                         CheckUse(input, old(currentBatches)[row].quantity).value, now))] &&
        currentBatches == FindAvailableBatches(batches.rows, old(selectedItem).value) &&
        shown == currentBatches && totalStock == Wrap32(SumInt(currentBatches, Quantity))
    {
      if row < 0 || row >= |currentBatches| {
        return Failure(RowOutOfRange);
      }
      var listed := currentBatches[row];
      var checked := CheckUse(input, listed.quantity);
      if checked.Failure? {
        return Failure(checked.error);
      }
      var qtyToUse := checked.value;
      var remainingQty := Wrap32(listed.quantity - qtyToUse);
      ReduceListed(batches, listed, qtyToUse);
      if selectedItem.None? {
        currentBatches := currentBatches[row := Reduced(listed, qtyToUse)];
        return Failure(LogRefused);
      }
      var id := log.Save(NewTransaction(selectedItem.value, STOCK_OUT, qtyToUse, now));
      LoadBatches(batches);
      r := Success(remainingQty);
    }
  }

  // ---------------------------------------------------------------------
  // Properties of `useBatch` and `loadBatches`

  /** The answer is accepted exactly when it is a whole number from 1 to
      the units the batch holds. */
  lemma UseAccepted(input: Option<string>, available: int)
    ensures CheckUse(input, available).Success? <==>
      input.Some? && ParseInt(Trim(input.value)).Success? &&
      0 < ParseInt(Trim(input.value)).value <= available
  {
  }

  /** Using units of a listed batch that is still stored as listed lowers
      the batch by exactly that many, leaves it between zero and its old
      quantity, and lowers its item's total by exactly that many; every
      other item's total stays. */
  lemma UseLowersTotal(rows: seq<BatchRow>, nextId: nat, listed: BatchRow, qtyToUse: int, itemId: nat)
    requires IndexOfId(rows, listed.id).Some? && rows[IndexOfId(rows, listed.id).value] == listed
    requires IsInt32(listed.quantity) && 0 < qtyToUse <= listed.quantity
    ensures Reduced(listed, qtyToUse).quantity == listed.quantity - qtyToUse
    ensures 0 <= Reduced(listed, qtyToUse).quantity < listed.quantity
    ensures ItemTotal(AfterReduce(rows, nextId, listed, qtyToUse), itemId) ==
      ItemTotal(rows, itemId) - (if itemId == listed.itemId then qtyToUse else 0)
  {
    var k := IndexOfId(rows, listed.id).value;
    ReduceWithinBounds(listed.quantity, qtyToUse);
    ItemTotalAfterReplace(rows, k, Reduced(listed, qtyToUse), itemId);
  }

  /** With no negative quantities, the label `loadBatches` writes equals
      `getTotalQuantity` of the item, overflow included. */
  lemma ListedTotalIsStock(rows: seq<BatchRow>, itemId: nat)
    requires forall k :: 0 <= k < |rows| ==> rows[k].quantity >= 0
    ensures Wrap32(SumInt(FindAvailableBatches(rows, itemId), Quantity)) == GetTotalQuantity(rows, itemId)
  {
    AvailableSumIsTotal(rows, itemId);
    if |Filter(OfItem(itemId), rows)| == 0 {
      assert ItemTotal(rows, itemId) == 0;
    }
  }
}
