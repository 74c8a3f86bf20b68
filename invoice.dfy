/** An invoice and its service lines. The invoice owns its list of lines and
    keeps `totalAmount` equal to the sum of their prices whenever a line is
    added or removed; the plain setters bypass that. */
module InvoiceEntity {
  import opened Wrappers
  import opened Seqs

  /** One service line. Only its constructor is used, so its serial number,
      description and price never change after construction; the reference
      back to its invoice does. */
  class InvoiceItem {
    const serialNumber: int
    const description: string
    const price: real
    var invoice: Invoice?

    /** `InvoiceItem(serialNumber, description, price)`. */
    constructor (serialNumber: int, description: string, price: real)
      ensures this.serialNumber == serialNumber && this.description == description
      ensures this.price == price && invoice == null
    {
      this.serialNumber := serialNumber;
      this.description := description;
      this.price := price;
      invoice := null;
    }
  }

  function ItemPrice(item: InvoiceItem): real { item.price }

  /** `items.stream().mapToDouble(InvoiceItem::getPrice).sum()`. */
  function Total(items: seq<InvoiceItem>): real
  {
    SumReal(items, ItemPrice)
  }

  class Invoice {
    var id: Option<nat>
    var invoiceNumber: string
    /** Seconds since the epoch. */
    var invoiceDate: int
    var customerName: string
    var contactNumber: string
    var vehicleNumber: string
    var currentMileage: Option<int>
    var totalAmount: real
    var items: seq<InvoiceItem>

    /** The total is the sum of the line prices. */
    ghost predicate TotalInSync()
      reads this
    {
      totalAmount == Total(items)
    }

    /** `Invoice(invoiceNumber, customerName, contactNumber, vehicleNumber,
        currentMileage)`: no lines, a zero total, dated `now`. */
    constructor (invoiceNumber: string, customerName: string, contactNumber: string,
                 vehicleNumber: string, currentMileage: Option<int>, now: int)
      ensures id == None && this.invoiceNumber == invoiceNumber && invoiceDate == now
      ensures this.customerName == customerName && this.contactNumber == contactNumber
      ensures this.vehicleNumber == vehicleNumber && this.currentMileage == currentMileage
      ensures items == [] && totalAmount == 0.0
      ensures TotalInSync()
    {
      id := None;
      this.invoiceNumber := invoiceNumber;
      invoiceDate := now;
      this.customerName := customerName;
      this.contactNumber := contactNumber;
      this.vehicleNumber := vehicleNumber;
      this.currentMileage := currentMileage;
      totalAmount := 0.0;
      items := [];
    }

    /** `addItem`: appends the line, points it at this invoice and
        recomputes the total, which grows by the line's price. */
    method AddItem(item: InvoiceItem)
      modifies this`items, this`totalAmount, item`invoice
      ensures items == old(items) + [item]
      ensures item.invoice == this
      ensures TotalInSync()
      ensures totalAmount == Total(old(items)) + item.price
    {
      items := items + [item];
      item.invoice := this;
      SumRealSnoc(old(items), item, ItemPrice);
      CalculateTotal();
    }

    /** `removeItem`: drops the first occurrence of the line, clears its
        reference to an invoice (whether or not it was on this one) and
        recomputes the total, which shrinks by the line's price if it was
        there. */
    method RemoveItem(item: InvoiceItem)
      modifies this`items, this`totalAmount, item`invoice
      ensures items == RemoveFirst(old(items), item)
      ensures item.invoice == null
      ensures TotalInSync()
      ensures item in old(items) ==> totalAmount == Total(old(items)) - item.price
      ensures item !in old(items) ==> items == old(items) && totalAmount == Total(old(items))
    {
      if item in items {
        SumRealRemoveFirst(items, item, ItemPrice);
      }
      items := RemoveFirst(items, item);
      item.invoice := null;
      CalculateTotal();
    }

    /** `calculateTotal`. */
    method CalculateTotal()
      modifies this`totalAmount
      ensures TotalInSync()
    {
      totalAmount := Total(items);
    }

    /** `setItems`: replaces the list without recomputing the total. */
    method SetItems(items: seq<InvoiceItem>)
      modifies this`items
      ensures this.items == items
    {
      this.items := items;
    }

    /** `setTotalAmount`: overwrites the total whatever the lines are. */
    method SetTotalAmount(totalAmount: real)
      modifies this`totalAmount
      ensures this.totalAmount == totalAmount
    {
      this.totalAmount := totalAmount;
    }
  }

  /** With all prices positive, the total is positive exactly when there is
      a line. */
  lemma {:induction false} TotalPositive(items: seq<InvoiceItem>)
    requires forall i :: 0 <= i < |items| ==> items[i].price > 0.0
    ensures |items| > 0 <==> Total(items) > 0.0
    ensures Total(items) >= 0.0
    decreases |items|
  {
    if |items| > 0 {
      TotalPositive(items[..|items| - 1]);
    }
  }
}
