/** One delivery of an item into stock: how many units are left of it, what
    they cost and what they sell for. The entity checks nothing; its
    quantity is changed only through `setQuantity`. */
module StockBatchEntity {
  import opened Wrappers

  class StockBatch {
    var id: Option<nat>
    /** The identity of the batch's item (the `item_id` join column). */
    var itemId: nat
    var quantity: int
    var buyPrice: real
    var sellPrice: real
    /** Seconds since the epoch. */
    var batchDate: int
    var batchReference: Option<string>

    /** `StockBatch(item, quantity, buyPrice, sellPrice, batchReference)`:
        every value is stored as given, with no check on signs, and the
        batch is dated `now`. */
    constructor (itemId: nat, quantity: int, buyPrice: real, sellPrice: real,
                 batchReference: Option<string>, now: int)
      ensures id == None && this.itemId == itemId && this.quantity == quantity
      ensures this.buyPrice == buyPrice && this.sellPrice == sellPrice
      ensures this.batchReference == batchReference && batchDate == now
    {
      id := None;
      this.itemId := itemId;
      this.quantity := quantity;
      this.buyPrice := buyPrice;
      this.sellPrice := sellPrice;
      this.batchReference := batchReference;
      batchDate := now;
    }

    /** `setQuantity`: the quantity and nothing else. */
    method SetQuantity(quantity: int)
      modifies this`quantity
      ensures this.quantity == quantity
    {
      this.quantity := quantity;
    }
  }
}
