/** The batch table. Rows stay in insertion order; `merge` writes an
    entity's state over the row with its identity, and the queries filter by
    item and order by batch date. */
module StockBatchDao {
  import opened Wrappers
  import opened JavaNumbers
  import opened Seqs
  import opened StockBatchEntity

  /** A stored batch. */
  datatype BatchRow = BatchRow(
    id: nat,
    itemId: nat,
    quantity: int,
    buyPrice: real,
    sellPrice: real,
    batchDate: int,
    batchReference: Option<string>)

  /** `persist` of an entity that already has an identity, or the
      IllegalArgumentException of `reduceQuantity`. */
  datatype BatchError = AlreadyPersisted | MoreThanAvailable

  function Quantity(r: BatchRow): int { r.quantity }

  /** `sb.item = :item`. */
  function OfItem(itemId: nat): BatchRow -> bool
  {
    (r: BatchRow) => r.itemId == itemId
  }

  /** `sb.quantity > 0`. */
  predicate InStock(r: BatchRow) { r.quantity > 0 }

  /** `sb.item = :item AND sb.quantity > 0`. */
  function AvailableOf(itemId: nat): BatchRow -> bool
  {
    (r: BatchRow) => r.itemId == itemId && r.quantity > 0
  }

  /** `ORDER BY sb.batchDate`, oldest first. */
  predicate ByDate(a: BatchRow, b: BatchRow) { a.batchDate <= b.batchDate }

  /** A batch's quantity if it belongs to the item, else nothing. */
  function QuantityOf(itemId: nat): BatchRow -> int
  {
    (r: BatchRow) => if r.itemId == itemId then r.quantity else 0
  }

  /** `sb.id <> :id`: every row but the one with identity `id`. */
  function IdIsNot(id: nat): BatchRow -> bool
  {
    (r: BatchRow) => r.id != id
  }

  /** The row that an entity's state is written to under identity `id`. */
  function RowOf(id: nat, batch: StockBatch): BatchRow
    reads batch
  {
    BatchRow(id, batch.itemId, batch.quantity, batch.buyPrice, batch.sellPrice,
             batch.batchDate, batch.batchReference)
  }

  /** The position of the row with identity `id`. */
  function IndexOfId(rows: seq<BatchRow>, id: nat): (r: Option<nat>)
    ensures r.Some? ==> r.value < |rows| && rows[r.value].id == id
    ensures r.None? ==> forall k :: 0 <= k < |rows| ==> rows[k].id != id
  {
    if |rows| == 0 then None
    else if rows[0].id == id then Some(0)
    else match IndexOfId(rows[1..], id)
      case None => None
      case Some(k) => Some(k + 1)
  }

  /** The table after `merge` of an entity whose state, under the identity
      it carries, is `row`: the row with that identity is overwritten, or the
      state is inserted under the next identity when there is none. */
  function MergeRow(rows: seq<BatchRow>, nextId: nat, row: BatchRow): seq<BatchRow>
  {
    match IndexOfId(rows, row.id)
    case Some(k) => rows[k := row]
    case None => rows + [row.(id := nextId)]
  }

  /** The table after `reduceQuantity(batch, k)` on a persisted entity whose
      state is `row`: refused when more is asked than the entity holds,
      otherwise the quantity lowered in `int` arithmetic is merged back. */
  function ReduceRows(rows: seq<BatchRow>, nextId: nat, row: BatchRow, k: int): Result<seq<BatchRow>, BatchError>
  {
    if k > row.quantity then Failure(MoreThanAvailable)
    else Success(MergeRow(rows, nextId, row.(quantity := Wrap32(row.quantity - k))))
  }

  /** `findById`. */
  function FindById(rows: seq<BatchRow>, id: nat): (r: Option<BatchRow>)
    ensures r.Some? ==> r.value in rows && r.value.id == id
    ensures r.None? ==> forall k :: 0 <= k < |rows| ==> rows[k].id != id
  {
    match IndexOfId(rows, id)
    case None => None
    case Some(k) => Some(rows[k])
  }

  /** `findByItem`: the item's batches, oldest first. */
  function FindByItem(rows: seq<BatchRow>, itemId: nat): seq<BatchRow>
  {
    Sort(ByDate, Filter(OfItem(itemId), rows))
  }

  /** `findAvailableBatches`: the item's batches with stock left, oldest first. */
  function FindAvailableBatches(rows: seq<BatchRow>, itemId: nat): seq<BatchRow>
  {
    Sort(ByDate, Filter(AvailableOf(itemId), rows))
  }

  /** `SUM(sb.quantity)` over the item's batches, as the database computes it. */
  function ItemTotal(rows: seq<BatchRow>, itemId: nat): int
  {
    SumInt(Filter(OfItem(itemId), rows), Quantity)
  }

  /** `getTotalQuantity`: the sum narrowed by `intValue()`; an item without
      batches sums to null, which becomes 0. */
  function GetTotalQuantity(rows: seq<BatchRow>, itemId: nat): (t: int)
    ensures IsInt32(t)
    ensures IsInt32(ItemTotal(rows, itemId)) ==> t == ItemTotal(rows, itemId)
  {
    var mine := Filter(OfItem(itemId), rows);
    if |mine| == 0 then 0 else Wrap32(SumInt(mine, Quantity))
  }

  class BatchStore {
    var rows: seq<BatchRow>
    var nextId: nat

    /** Identities are assigned in increasing order. */
    ghost predicate Valid()
      reads this
    {
      (forall i :: 0 <= i < |rows| ==> rows[i].id < nextId) &&
      (forall i, j :: 0 <= i < j < |rows| ==> rows[i].id < rows[j].id)
    }

    constructor ()
      ensures Valid() && rows == [] && nextId == 0
    {
      rows := [];
      nextId := 0;
    }

    /** `save`: persists a new batch under the next identity. */
    method Save(batch: StockBatch) returns (outcome: Outcome<BatchError>)
      requires Valid()
      modifies this, batch`id
      ensures Valid()
      ensures outcome == if old(batch.id).Some? then Fail(AlreadyPersisted) else Pass
      ensures outcome.Fail? ==> rows == old(rows) && nextId == old(nextId)
      ensures outcome.Fail? ==> batch.id == old(batch.id)
      ensures outcome.Pass? ==>
        batch.id == Some(old(nextId)) && rows == old(rows) + [RowOf(old(nextId), batch)]
    {
      if batch.id.Some? {
        return Fail(AlreadyPersisted);
      }
      var row := RowOf(nextId, batch);
      rows := rows + [row];
      batch.id := Some(nextId);
      nextId := nextId + 1;
      outcome := Pass;
    }

    /** `merge`: the entity's state overwrites the row with its identity;
        an entity with no stored row is inserted as a new row (the entity
        itself keeps no identity). */
    method Merge(batch: StockBatch)
      requires Valid()
      modifies this
      ensures Valid()
      ensures batch.id.Some? && IndexOfId(old(rows), batch.id.value).Some? ==>
        rows == old(rows)[IndexOfId(old(rows), batch.id.value).value := RowOf(batch.id.value, batch)] &&
        nextId == old(nextId)
      ensures batch.id.None? || IndexOfId(old(rows), batch.id.value).None? ==>
        rows == old(rows) + [RowOf(old(nextId), batch)] && nextId == old(nextId) + 1
    {
      var k := if batch.id.Some? then IndexOfId(rows, batch.id.value) else None;
      if k.Some? {
        rows := rows[k.value := RowOf(batch.id.value, batch)];
      } else {
        rows := rows + [RowOf(nextId, batch)];
        nextId := nextId + 1;
      }
    }

    /** `update`. */
    method Update(batch: StockBatch)
      requires Valid()
      modifies this
      ensures Valid()
      ensures batch.id.Some? && IndexOfId(old(rows), batch.id.value).Some? ==>
        rows == old(rows)[IndexOfId(old(rows), batch.id.value).value := RowOf(batch.id.value, batch)] &&
        nextId == old(nextId)
      ensures batch.id.None? || IndexOfId(old(rows), batch.id.value).None? ==>
        rows == old(rows) + [RowOf(old(nextId), batch)] && nextId == old(nextId) + 1
    {
      Merge(batch);
    }

    /** `updateQuantity`: sets the entity's quantity, then merges it. */
    method UpdateQuantity(batch: StockBatch, newQuantity: int)
      requires Valid()
      modifies this, batch`quantity
      ensures Valid()
      ensures batch.quantity == newQuantity
      ensures batch.id.Some? && IndexOfId(old(rows), batch.id.value).Some? ==>
        rows == old(rows)[IndexOfId(old(rows), batch.id.value).value := RowOf(batch.id.value, batch)] &&
        nextId == old(nextId)
      ensures batch.id.None? || IndexOfId(old(rows), batch.id.value).None? ==>
        rows == old(rows) + [RowOf(old(nextId), batch)] && nextId == old(nextId) + 1
    {
      batch.SetQuantity(newQuantity);
      Merge(batch);
    }

    /** `reduceQuantity`: refuses to take more than the batch holds;
        otherwise stores `quantity - k` in Java `int` arithmetic. A negative
        `k` is not refused. */
    method ReduceQuantity(batch: StockBatch, quantityToReduce: int) returns (outcome: Outcome<BatchError>)
      requires Valid()
      modifies this, batch`quantity
      ensures Valid()
      ensures outcome == if quantityToReduce > old(batch.quantity) then Fail(MoreThanAvailable) else Pass
      ensures outcome.Fail? ==> batch.quantity == old(batch.quantity)
      ensures outcome.Fail? ==> rows == old(rows) && nextId == old(nextId)
      ensures outcome.Pass? ==> batch.quantity == Wrap32(old(batch.quantity) - quantityToReduce)
      ensures outcome.Pass? && batch.id.Some? && IndexOfId(old(rows), batch.id.value).Some? ==>
        rows == old(rows)[IndexOfId(old(rows), batch.id.value).value := RowOf(batch.id.value, batch)] &&
        nextId == old(nextId)
      ensures outcome.Pass? && (batch.id.None? || IndexOfId(old(rows), batch.id.value).None?) ==>
        rows == old(rows) + [RowOf(old(nextId), batch)] && nextId == old(nextId) + 1
      ensures batch.id.Some? ==>
        (outcome.Pass? <==> ReduceRows(old(rows), old(nextId), old(RowOf(batch.id.value, batch)), quantityToReduce).Success?)
      ensures batch.id.Some? && outcome.Pass? ==>
        rows == ReduceRows(old(rows), old(nextId), old(RowOf(batch.id.value, batch)), quantityToReduce).value
    {
      if quantityToReduce > batch.quantity {
        return Fail(MoreThanAvailable);
      }
      var newQuantity := Wrap32(batch.quantity - quantityToReduce);
      UpdateQuantity(batch, newQuantity);
      outcome := Pass;
    }

    /** `delete`: removes the row with the entity's identity; an entity
        without one removes nothing. */
    method Delete(batch: StockBatch)
      requires Valid()
      modifies this
      ensures Valid() && nextId == old(nextId)
      ensures batch.id.None? ==> rows == old(rows)
      ensures batch.id.Some? ==> rows == Filter(IdIsNot(batch.id.value), old(rows))
    {
      if batch.id.Some? {
        var id := batch.id.value;
        var kept := Filter(IdIsNot(id), rows);
        FilterMembers(IdIsNot(id), rows);
        FilterKeepsIdOrder(id, rows);
        forall i | 0 <= i < |kept| ensures kept[i].id < nextId {
          var k :| 0 <= k < |rows| && rows[k] == kept[i];
        }
        rows := kept;
      }
    }
  }

  /** Removing rows keeps the survivors' identities increasing. */
  lemma {:induction false} FilterKeepsIdOrder(id: nat, rows: seq<BatchRow>)
    requires forall i, j :: 0 <= i < j < |rows| ==> rows[i].id < rows[j].id
    ensures forall i, j :: 0 <= i < j < |Filter(IdIsNot(id), rows)| ==>
      Filter(IdIsNot(id), rows)[i].id < Filter(IdIsNot(id), rows)[j].id
    decreases |rows|
  {
    if |rows| > 0 {
      var init, last := rows[..|rows| - 1], rows[|rows| - 1];
      FilterKeepsIdOrder(id, init);
      var ki := Filter(IdIsNot(id), init);
      FilterMembers(IdIsNot(id), init);
      if IdIsNot(id)(last) {
        forall i | 0 <= i < |ki| ensures ki[i].id < last.id {
          var k :| 0 <= k < |init| && init[k] == ki[i];
          assert init[k] == rows[k];
        }
        var kept := ki + [last];
        forall i, j | 0 <= i < j < |kept| ensures kept[i].id < kept[j].id {
          assert kept[i] == ki[i];
          if j < |ki| {
            assert kept[j] == ki[j];
          }
        }
        assert Filter(IdIsNot(id), rows) == kept;
      } else {
        assert Filter(IdIsNot(id), rows) == ki;
      }
    }
  }

  // ---------------------------------------------------------------------
  // Properties of the queries

  lemma ByDateTotalPreorder()
    ensures TotalPreorder(ByDate)
  {
  }

  /** The available batches are the item's batches with stock left, in the
      same order as `findByItem` lists them. */
  lemma AvailableIsFilteredByItem(rows: seq<BatchRow>, itemId: nat)
    ensures FindAvailableBatches(rows, itemId) == Filter(InStock, FindByItem(rows, itemId))
  {
    ByDateTotalPreorder();
    FilterSort(ByDate, InStock, Filter(OfItem(itemId), rows));
    FilterFilter(OfItem(itemId), InStock, AvailableOf(itemId), rows);
  }

  /** `findAvailableBatches` lists exactly the item's batches with stock
      left, each once, oldest first. */
  lemma AvailableContents(rows: seq<BatchRow>, itemId: nat)
    ensures multiset(FindAvailableBatches(rows, itemId)) == multiset(Filter(AvailableOf(itemId), rows))
    ensures SortedBy(ByDate, FindAvailableBatches(rows, itemId))
    ensures forall r :: r in FindAvailableBatches(rows, itemId) <==> r in rows && r.itemId == itemId && r.quantity > 0
  {
    var kept := Filter(AvailableOf(itemId), rows);
    ByDateTotalPreorder();
    SortPermutation(ByDate, kept);
    SortSorted(ByDate, kept);
    FilterIn(AvailableOf(itemId), rows);
    SortIn(ByDate, kept);
  }

  /** `findByItem` lists exactly the item's batches, each once, oldest first. */
  lemma ByItemContents(rows: seq<BatchRow>, itemId: nat)
    ensures multiset(FindByItem(rows, itemId)) == multiset(Filter(OfItem(itemId), rows))
    ensures SortedBy(ByDate, FindByItem(rows, itemId))
  {
    ByDateTotalPreorder();
    SortPermutation(ByDate, Filter(OfItem(itemId), rows));
    SortSorted(ByDate, Filter(OfItem(itemId), rows));
  }

  /** With no negative quantities, the available batches hold the whole
      stock of the item. */
  lemma AvailableSumIsTotal(rows: seq<BatchRow>, itemId: nat)
    requires forall k :: 0 <= k < |rows| ==> rows[k].quantity >= 0
    ensures SumInt(FindAvailableBatches(rows, itemId), Quantity) == ItemTotal(rows, itemId)
  {
    var mine := Filter(OfItem(itemId), rows);
    FilterMembers(OfItem(itemId), rows);
    forall i | 0 <= i < |mine| && !InStock(mine[i]) ensures Quantity(mine[i]) == 0 {
      var k :| 0 <= k < |rows| && rows[k] == mine[i];
    }
    SumIntFilterZeros(InStock, mine, Quantity);
    FilterFilter(OfItem(itemId), InStock, AvailableOf(itemId), rows);
    SumIntSort(ByDate, Filter(AvailableOf(itemId), rows), Quantity);
  }

  /** The item total counts every batch of the item and nothing else. */
  lemma ItemTotalIsMaskedSum(rows: seq<BatchRow>, itemId: nat)
    ensures ItemTotal(rows, itemId) == SumInt(rows, QuantityOf(itemId))
  {
    SumIntFilterMask(OfItem(itemId), rows, Quantity, QuantityOf(itemId));
  }

  /** Writing a batch of the item over its own row moves the item total by
      the change in that batch's quantity, and leaves every other item's
      total alone. */
  lemma ItemTotalAfterReplace(rows: seq<BatchRow>, k: nat, r: BatchRow, itemId: nat)
    requires k < |rows| && r.itemId == rows[k].itemId
    ensures ItemTotal(rows[k := r], itemId) ==
      ItemTotal(rows, itemId) + (if r.itemId == itemId then r.quantity - rows[k].quantity else 0)
  {
    ItemTotalIsMaskedSum(rows, itemId);
    ItemTotalIsMaskedSum(rows[k := r], itemId);
    SumIntUpdate(rows, k, r, QuantityOf(itemId));
  }

  /** A new batch raises its item's total by its quantity and leaves every
      other item's total alone. */
  lemma ItemTotalAfterAppend(rows: seq<BatchRow>, r: BatchRow, itemId: nat)
    ensures ItemTotal(rows + [r], itemId) ==
      ItemTotal(rows, itemId) + (if r.itemId == itemId then r.quantity else 0)
  {
    var mine := Filter(OfItem(itemId), rows);
    FilterSnoc(OfItem(itemId), rows, r);
    if r.itemId == itemId {
      SumIntSnoc(mine, r, Quantity);
    } else {
      assert Filter(OfItem(itemId), rows + [r]) == mine;
    }
  }

  /** An item without batches has a total of zero. */
  lemma NoBatchesNoStock(rows: seq<BatchRow>, itemId: nat)
    requires forall k :: 0 <= k < |rows| ==> rows[k].itemId != itemId
    ensures GetTotalQuantity(rows, itemId) == 0
  {
    FilterNone(OfItem(itemId), rows);
  }

  /** Reducing by `k` with `0 <= k <= quantity` leaves a quantity between
      zero and the old one, exactly `quantity - k`. */
  lemma ReduceWithinBounds(quantity: int, k: int)
    requires IsInt32(quantity) && 0 <= k <= quantity
    ensures Wrap32(quantity - k) == quantity - k
    ensures 0 <= Wrap32(quantity - k) <= quantity
  {
  }

  /** The guard of `reduceQuantity` refuses only asking for more than is
      held, so a negative amount passes for a stored batch that holds no
      negative quantity: as long as the result stays an `int`, the batch
      gains `-k` units in place, and so does its item's total. */
  lemma NegativeReductionRaises(rows: seq<BatchRow>, nextId: nat, row: BatchRow, k: int)
    requires IndexOfId(rows, row.id).Some? && rows[IndexOfId(rows, row.id).value] == row
    requires 0 <= row.quantity && k < 0 && IsInt32(row.quantity - k)
    ensures ReduceRows(rows, nextId, row, k).Success?
    ensures var after := ReduceRows(rows, nextId, row, k).value;
      var i := IndexOfId(rows, row.id).value;
      |after| == |rows| && after[i].quantity == row.quantity - k && after[i].quantity > row.quantity &&
      ItemTotal(after, row.itemId) == ItemTotal(rows, row.itemId) - k
  {
    var i := IndexOfId(rows, row.id).value;
    ItemTotalAfterReplace(rows, i, row.(quantity := row.quantity - k), row.itemId);
  }
}
