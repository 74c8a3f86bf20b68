/** The invoice form: the customer fields and their validation, the table
    of service rows with its serial numbers and price cells, the total
    shown under it, and building and saving an invoice from the form.
    Each text field is held as the text the user typed; every check trims
    it first. A price cell shows the `%.2f` text of the price typed, and
    the total and the saved lines read that text back; a row holds the
    number the cell reads back as (see `PriceCellReadsBack`), and the
    total label the number it shows. */
module InvoiceForm {
  import opened Wrappers
  import opened Text
  import opened JavaNumbers
  import opened Seqs
  import opened InvoiceEntity
  import opened InvoiceDao

  /** The reason a dialog gives for refusing the form. */
  datatype FormError =
    | EmptyInvoiceNumber | MalformedInvoiceNumber
    | MissingCustomerName
    | MissingContactNumber | MalformedContactNumber
    | MissingVehicleNumber
    | MissingMileage | MalformedMileage | NegativeMileage
    | MissingDescription | ShortDescription
    | MissingPrice | MalformedPrice | NonPositivePrice
    | NoServices

  /** What stops `saveInvoice`: the form, the database, or numbering the
      next invoice once the saved one is cleared away. */
  datatype SaveInvoiceError =
    | FormRejected(formError: FormError)
    | SaveRejected(saveError: InvoiceSaveError)
    | NumberingFailed(numberError: NumberFormatError)

  /** One row of the services table: serial number, description and the
      value of the price cell. */
  datatype ServiceRow = ServiceRow(serial: int, description: string, price: real)

  const MIN_DESCRIPTION_LENGTH: nat := 3
  const CONTACT_DIGITS: nat := 10
  const TOTAL_PREFIX: string := "Rs. "
  /** "Rs. 0.00", the label of an empty table. */
  const ZERO_TOTAL: string := TOTAL_PREFIX + "0.00"

  /** The regular expression `INV-\d{7}`. */
  predicate IsInvoiceNumber(s: string)
  {
    |s| == |PREFIX| + NUMBER_WIDTH && StartsWith(s, PREFIX) && AllDigits(s[|PREFIX|..])
  }

  /** The regular expression `\d{10}`. */
  predicate IsContactNumber(s: string)
  {
    |s| == CONTACT_DIGITS && AllDigits(s)
  }

  /** `validateInvoiceNumber`. */
  function CheckInvoiceNumber(invoiceNumber: string): Outcome<FormError>
  {
    if |invoiceNumber| == 0 then Fail(EmptyInvoiceNumber)
    else if !IsInvoiceNumber(invoiceNumber) then Fail(MalformedInvoiceNumber)
    else Pass
  }

  /** The mileage checks: present, an `int`, not negative. */
  function CheckMileage(mileageText: string): (r: Result<int, FormError>)
    ensures r.Success? ==> r.value >= 0 && ParseInt(mileageText) == Success(r.value)
  {
    if |mileageText| == 0 then Failure(MissingMileage)
    else match ParseInt(mileageText)
      case Failure(_) => Failure(MalformedMileage)
      case Success(mileage) => if mileage < 0 then Failure(NegativeMileage) else Success(mileage)
  }

  /** `validateCustomerFields`, and the same checks in the same order at
      the head of `createInvoiceFromForm`; yields the mileage. */
  function CheckCustomerFields(invoiceNumberText: string, customerNameText: string,
                               contactNumberText: string, vehicleNumberText: string,
                               mileageText: string): (r: Result<int, FormError>)
    ensures r.Success? ==> r == CheckMileage(Trim(mileageText))
  {
    var invoiceNumber := Trim(invoiceNumberText);
    var contactNumber := Trim(contactNumberText);
    if CheckInvoiceNumber(invoiceNumber).Fail? then Failure(CheckInvoiceNumber(invoiceNumber).error)
    else if |Trim(customerNameText)| == 0 then Failure(MissingCustomerName)
    else if |contactNumber| == 0 then Failure(MissingContactNumber)
    else if !IsContactNumber(contactNumber) then Failure(MalformedContactNumber)
    else if |Trim(vehicleNumberText)| == 0 then Failure(MissingVehicleNumber)
    else CheckMileage(Trim(mileageText))
  }

  /** The service checks of `addService`; yields the price typed. */
  function CheckService(descriptionText: string, priceText: string): (r: Result<real, FormError>)
    ensures r.Success? ==> |Trim(descriptionText)| >= MIN_DESCRIPTION_LENGTH
    ensures r.Success? ==> r.value > 0.0 && ParseDecimal(Trim(priceText)) == Some(r.value)
  {
    var description := Trim(descriptionText);
    var price := Trim(priceText);
    if |description| == 0 then Failure(MissingDescription)
    else if |description| < MIN_DESCRIPTION_LENGTH then Failure(ShortDescription)
    else if |price| == 0 then Failure(MissingPrice)
    else match ParseDecimal(price)
      case None => Failure(MalformedPrice)
      case Some(value) => if value <= 0.0 then Failure(NonPositivePrice) else Success(value)
  }

  /** The text of a price cell, `%.2f` of the price typed. */
  function PriceCell(price: real): string
  {
    FormatFixed2(price)
  }

  function RowPrice(row: ServiceRow): real { row.price }

  /** The sum of the price column. */
  function RowsTotal(rows: seq<ServiceRow>): real
  {
    SumReal(rows, RowPrice)
  }

  /** The text of the total label, `Rs. %.2f`. */
  function TotalText(total: real): string
  {
    TOTAL_PREFIX + FormatFixed2(total)
  }

  /** The lines an invoice built from these rows carries. */
  function LinesOf(rows: seq<ServiceRow>): (ls: seq<LineRow>)
    ensures |ls| == |rows|
    ensures forall i :: 0 <= i < |rows| ==>
      ls[i] == LineRow(rows[i].serial, rows[i].description, rows[i].price)
  {
    seq(|rows|, i requires 0 <= i < |rows| => LineRow(rows[i].serial, rows[i].description, rows[i].price))
  }

  /** The rows are numbered 1, 2, ... in table order. */
  predicate Numbered(rows: seq<ServiceRow>)
  {
    forall i :: 0 <= i < |rows| ==> rows[i].serial == i + 1
  }

  lemma NumberedSnoc(rows: seq<ServiceRow>, row: ServiceRow)
    requires Numbered(rows) && row.serial == |rows| + 1
    ensures Numbered(rows + [row])
  {
    var rs := rows + [row];
    forall i | 0 <= i < |rs| ensures rs[i].serial == i + 1 {
      if i < |rows| {
        assert rs[i] == rows[i];
      }
    }
  }

  /** Everything the invoice panel shows: its fields, its table, the
      serial counter and the total label. */
  datatype PanelState = PanelState(
    invoiceNumberText: string,
    invoiceNumberEditable: bool,
    customerNameText: string,
    contactNumberText: string,
    vehicleNumberText: string,
    mileageText: string,
    descriptionText: string,
    priceText: string,
    rows: seq<ServiceRow>,
    serialCounter: int,
    shownTotal: real)

  class InvoicePanel {
    var invoiceNumberText: string
    var invoiceNumberEditable: bool
    var customerNameText: string
    var contactNumberText: string
    var vehicleNumberText: string
    var mileageText: string
    var descriptionText: string
    var priceText: string
    var rows: seq<ServiceRow>
    var serialCounter: int
    /** The number the total label shows. */
    var shownTotal: real

    /** The rows are numbered 1, 2, ... in table order and the counter
        holds the next number. */
    ghost predicate SerialsInOrder()
      reads this
    {
      Numbered(rows) && serialCounter == |rows| + 1
    }

    /** The label shows the sum of the price column. */
    ghost predicate TotalShown()
      reads this
    {
      shownTotal == RowsTotal(rows)
    }

    ghost predicate Valid()
      reads this
    {
      SerialsInOrder() && TotalShown()
    }

    /** The panel as the user sees it. */
    function State(): PanelState
      reads this
    {
      PanelState(invoiceNumberText, invoiceNumberEditable, customerNameText, contactNumberText,
                 vehicleNumberText, mileageText, descriptionText, priceText, rows, serialCounter, shownTotal)
    }

    /** The customer and service fields are empty. */
    predicate FieldsCleared()
      reads this
    {
      customerNameText == "" && contactNumberText == "" && vehicleNumberText == "" &&
      mileageText == "" && descriptionText == "" && priceText == ""
    }

    /** The customer checks on the fields as they stand. */
    function FieldsCheck(): Result<int, FormError>
      reads this
    {
      CheckCustomerFields(invoiceNumberText, customerNameText, contactNumberText, vehicleNumberText, mileageText)
    }

    /** The row that saving the invoice built from the form adds, under
        identity `id`, dated `now`, with the mileage the checks read. */
    function FormRow(id: nat, now: int, mileage: int): InvoiceRow
      reads this
    {
      InvoiceRow(id, Trim(invoiceNumberText), now, Trim(customerNameText), Trim(contactNumberText),
                 ToUpper(Trim(vehicleNumberText)), Some(mileage), RowsTotal(rows), LinesOf(rows))
    }

    /** The panel as `initializeUI` leaves it: empty editable fields, an
        empty table, the counter at 1 and the total at "Rs. 0.00". */
    constructor ()
      ensures Valid()
      ensures rows == [] && serialCounter == 1 && shownTotal == 0.0
      ensures invoiceNumberText == "" && invoiceNumberEditable
      ensures customerNameText == "" && contactNumberText == "" && vehicleNumberText == ""
      ensures mileageText == "" && descriptionText == "" && priceText == ""
    {
      invoiceNumberText := "";
      invoiceNumberEditable := true;
      customerNameText := "";
      contactNumberText := "";
      vehicleNumberText := "";
      mileageText := "";
      descriptionText := "";
      priceText := "";
      rows := [];
      serialCounter := 1;
      shownTotal := 0.0;
    }

    /** `generateNewInvoice`: proposes the next invoice number, lets the
        user edit it only while no invoice exists, and restarts the serial
        counter. The rows are left as they are. A failure to number stops
        it before anything changes. */
    method GenerateNewInvoice(store: InvoiceStore) returns (outcome: Outcome<NumberFormatError>)
      modifies this`invoiceNumberText, this`invoiceNumberEditable, this`serialCounter
      ensures GenerateNextInvoiceNumber(store.rows).Failure? ==>
        outcome == Fail(GenerateNextInvoiceNumber(store.rows).error) &&
        invoiceNumberText == old(invoiceNumberText) && invoiceNumberEditable == old(invoiceNumberEditable) &&
        serialCounter == old(serialCounter)
      ensures GenerateNextInvoiceNumber(store.rows).Success? ==>
        outcome == Pass && invoiceNumberText == GenerateNextInvoiceNumber(store.rows).value &&
        invoiceNumberEditable == IsFirstInvoice(store.rows) && serialCounter == 1
    {
      var invoiceNumber := GenerateNextInvoiceNumber(store.rows);
      if invoiceNumber.Failure? {
        return Fail(invoiceNumber.error);
      }
      invoiceNumberText := invoiceNumber.value;
      invoiceNumberEditable := IsFirstInvoice(store.rows);
      serialCounter := 1;
      outcome := Pass;
    }

    /** `updateTotal`: adds up the price column and shows the sum. */
    method UpdateTotal()
      modifies this`shownTotal
      ensures TotalShown()
    {
      var total := 0.0;
      var i := 0;
      while i < |rows|
        invariant 0 <= i <= |rows|
        invariant total == RowsTotal(rows[..i])
      {
        total := total + rows[i].price;
        assert rows[..i + 1] == rows[..i] + [rows[i]];
        SumRealSnoc(rows[..i], rows[i], RowPrice);
        i := i + 1;
      }
      assert rows[..i] == rows;
      shownTotal := total;
    }

    /** `addService`: once the customer fields and the service pass their
        checks, appends a row numbered by the counter holding the trimmed
        description and the `%.2f` text of the price, clears the service
        fields and shows the new total. A refused service changes nothing. */
    method AddService() returns (outcome: Outcome<FormError>)
      requires Valid()
      modifies this`rows, this`serialCounter, this`descriptionText, this`priceText, this`shownTotal
      ensures Valid()
      ensures old(FieldsCheck()).Failure? ==>
        outcome == Fail(old(FieldsCheck()).error)
      ensures old(FieldsCheck()).Success? ==>
        outcome == if CheckService(old(descriptionText), old(priceText)).Failure?
                   then Fail(CheckService(old(descriptionText), old(priceText)).error) else Pass
      ensures outcome.Fail? ==>
        rows == old(rows) && serialCounter == old(serialCounter) && shownTotal == old(shownTotal) &&
        descriptionText == old(descriptionText) && priceText == old(priceText)
      ensures outcome.Pass? ==>
        rows == old(rows) + [ServiceRow(old(serialCounter), Trim(old(descriptionText)),
                                        Round2(CheckService(old(descriptionText), old(priceText)).value))] &&
        serialCounter == old(serialCounter) + 1 && descriptionText == "" && priceText == ""
      ensures outcome.Pass? ==>
        RowsTotal(rows) == RowsTotal(old(rows)) + Round2(CheckService(old(descriptionText), old(priceText)).value)
    {
      var fields := FieldsCheck();
      if fields.Failure? {
        return Fail(fields.error);
      }
      var service := CheckService(descriptionText, priceText);
      if service.Failure? {
        return Fail(service.error);
      }
      AppendService(Trim(descriptionText), Round2(service.value));
      outcome := Pass;
    }

    /** The table half of `addService`: the row numbered by the counter,
        the service fields cleared and the new total shown. */
    method AppendService(description: string, price: real)
      requires Valid()
      modifies this`rows, this`serialCounter, this`descriptionText, this`priceText, this`shownTotal
      ensures Valid()
      ensures rows == old(rows) + [ServiceRow(old(serialCounter), description, price)]
      ensures serialCounter == old(serialCounter) + 1 && descriptionText == "" && priceText == ""
      ensures RowsTotal(rows) == RowsTotal(old(rows)) + price
    {
      var row := ServiceRow(serialCounter, description, price);
      SumRealSnoc(rows, row, RowPrice);
      NumberedSnoc(rows, row);
      rows := rows + [row];
      serialCounter := serialCounter + 1;
      descriptionText := "";
      priceText := "";
      UpdateTotal();
    }

    /** `removeService`: for a row in the table, removes it, renumbers
        the rows that follow, resets the counter and shows the new total;
        any other row number changes nothing. */
    method RemoveService(row: int)
      requires Valid()
      modifies this`rows, this`serialCounter, this`shownTotal
      ensures Valid()
      ensures !(0 <= row < |old(rows)|) ==>
        rows == old(rows) && serialCounter == old(serialCounter) && shownTotal == old(shownTotal)
      ensures 0 <= row < |old(rows)| ==> |rows| == |old(rows)| - 1
      ensures 0 <= row < |old(rows)| ==> forall i :: 0 <= i < row ==> rows[i] == old(rows)[i]
      ensures 0 <= row < |old(rows)| ==>
        forall i :: row <= i < |rows| ==> rows[i] == old(rows)[i + 1].(serial := i + 1)
      ensures 0 <= row < |old(rows)| ==> RowsTotal(rows) == RowsTotal(old(rows)) - old(rows)[row].price
    {
      if 0 <= row < |rows| {
        ghost var before := rows;
        var kept := rows[..row] + rows[row + 1..];
        assert forall k :: 0 <= k < row ==> kept[k] == before[k];
        assert forall k :: row <= k < |kept| ==> kept[k] == before[k + 1];
        rows := kept;
        RenumberRows();
        serialCounter := |rows| + 1;
        RemovedRowTotal(before, row);
        RowsTotalIgnoresSerials(rows, kept);
        UpdateTotal();
      }
    }

    /** The renumbering loop of `removeService`: row `k` gets serial
        number `k + 1`, in place; nothing else about the rows changes. */
    method RenumberRows()
      modifies this`rows
      ensures |rows| == |old(rows)| && Numbered(rows)
      ensures forall k :: 0 <= k < |rows| ==> rows[k] == old(rows)[k].(serial := k + 1)
    {
      var i := 0;
      while i < |rows|
        invariant 0 <= i <= |rows| == |old(rows)|
        invariant forall k :: 0 <= k < i ==> rows[k] == old(rows)[k].(serial := k + 1)
        invariant forall k :: i <= k < |rows| ==> rows[k] == old(rows)[k]
      {
        rows := rows[i := rows[i].(serial := i + 1)];
        i := i + 1;
      }
    }

    /** `clearForm`: empties the customer and service fields and the
        table, shows a zero total, and numbers a new invoice. */
    method ClearForm(store: InvoiceStore) returns (outcome: Outcome<NumberFormatError>)
      modifies this
      ensures FieldsCleared()
      ensures rows == [] && shownTotal == 0.0
      ensures TotalShown()
      ensures GenerateNextInvoiceNumber(store.rows).Failure? ==>
        outcome == Fail(GenerateNextInvoiceNumber(store.rows).error) &&
        invoiceNumberText == old(invoiceNumberText) && invoiceNumberEditable == old(invoiceNumberEditable) &&
        serialCounter == old(serialCounter)
      ensures GenerateNextInvoiceNumber(store.rows).Success? ==>
        outcome == Pass && invoiceNumberText == GenerateNextInvoiceNumber(store.rows).value &&
        invoiceNumberEditable == IsFirstInvoice(store.rows) && Valid()
    {
      customerNameText := "";
      contactNumberText := "";
      vehicleNumberText := "";
      mileageText := "";
      descriptionText := "";
      priceText := "";
      rows := [];
      shownTotal := 0.0;
      outcome := GenerateNewInvoice(store);
    }

    /** `createInvoiceFromForm`: after the customer checks and with at
        least one row, a new unsaved invoice that saves as the row the form
        describes (`FormRow`: the trimmed fields, the vehicle number in
        capitals, the mileage, one line per service row in row order with
        its serial, description and price, and their sum as the total),
        each of its lines new and pointing back at it. */
    method CreateInvoiceFromForm(now: int) returns (r: Result<Invoice, FormError>)
      ensures old(FieldsCheck()).Failure? ==>
        r == Failure(old(FieldsCheck()).error)
      ensures old(FieldsCheck()).Success? && |old(rows)| == 0 ==>
        r == Failure(NoServices)
      ensures r.Success? ==>
        old(FieldsCheck()).Success? && |old(rows)| > 0
      ensures old(FieldsCheck()).Success? && |old(rows)| > 0 ==> r.Success?
      ensures r.Success? ==> fresh(r.value) && r.value.id == None && r.value.TotalInSync()
      ensures r.Success? ==> forall id: nat :: RowOf(id, r.value) == old(FormRow(id, now, FieldsCheck().value))
      ensures r.Success? ==>
        forall i :: 0 <= i < |r.value.items| ==> fresh(r.value.items[i]) && r.value.items[i].invoice == r.value
    {
      var fields := FieldsCheck();
      if fields.Failure? {
        return Failure(fields.error);
      }
      if |rows| == 0 {
        return Failure(NoServices);
      }
      var invoice := BuildInvoice(fields.value, now);
      forall id: nat ensures RowOf(id, invoice) == FormRow(id, now, fields.value) {
      }
      r := Success(invoice);
    }

    /** The invoice `createInvoiceFromForm` builds once the checks pass:
        the form's fields, the mileage read, and one line per row. */
    method BuildInvoice(mileage: int, now: int) returns (invoice: Invoice)
      ensures fresh(invoice) && invoice.id == None && invoice.TotalInSync()
      ensures invoice.invoiceNumber == Trim(invoiceNumberText) && invoice.invoiceDate == now
      ensures invoice.customerName == Trim(customerNameText) && invoice.contactNumber == Trim(contactNumberText)
      ensures invoice.vehicleNumber == ToUpper(Trim(vehicleNumberText)) && invoice.currentMileage == Some(mileage)
      ensures Lines(invoice.items) == LinesOf(rows) && invoice.totalAmount == RowsTotal(rows)
      ensures forall i :: 0 <= i < |invoice.items| ==> fresh(invoice.items[i]) && invoice.items[i].invoice == invoice
    {
      invoice := new Invoice(Trim(invoiceNumberText), Trim(customerNameText), Trim(contactNumberText),
                             ToUpper(Trim(vehicleNumberText)), Some(mileage), now);
      AddLines(invoice);
    }

    /** The loop of `createInvoiceFromForm`: one new line per row, in row
        order, with the row's serial, description and price. */
    method AddLines(invoice: Invoice)
      requires invoice.items == [] && invoice.totalAmount == 0.0
      modifies invoice`items, invoice`totalAmount
      ensures Lines(invoice.items) == LinesOf(rows)
      ensures forall k :: 0 <= k < |invoice.items| ==> fresh(invoice.items[k]) && invoice.items[k].invoice == invoice
      ensures invoice.TotalInSync() && invoice.totalAmount == RowsTotal(rows)
    {
      var i := 0;
      while i < |rows|
        invariant 0 <= i <= |rows|
        invariant Lines(invoice.items) == LinesOf(rows[..i])
        invariant forall k :: 0 <= k < |invoice.items| ==> fresh(invoice.items[k]) && invoice.items[k].invoice == invoice
        invariant invoice.TotalInSync() && invoice.totalAmount == RowsTotal(rows[..i])
      {
        var item := new InvoiceItem(rows[i].serial, rows[i].description, rows[i].price);
        ghost var lines := Lines(invoice.items);
        invoice.AddItem(item);
        assert rows[..i + 1] == rows[..i] + [rows[i]];
        SumRealSnoc(rows[..i], rows[i], RowPrice);
        assert Lines(invoice.items) == lines + [LineRow(rows[i].serial, rows[i].description, rows[i].price)];
        i := i + 1;
      }
      assert rows[..i] == rows;
    }

    /** `saveInvoice`: builds the invoice from the form and saves it; once
        saved, the form is cleared and the next number proposed. A refused
        form or save leaves the form and the table as they were. */
    method SaveInvoice(store: InvoiceStore, now: int) returns (outcome: Outcome<SaveInvoiceError>)
      requires Valid() && store.Valid()
      modifies this, store
      ensures store.Valid()
      ensures old(FieldsCheck()).Failure? ==>
        outcome == Fail(FormRejected(old(FieldsCheck()).error))
      ensures outcome.Fail? && (outcome.error.FormRejected? || outcome.error.SaveRejected?) ==>
        store.rows == old(store.rows) && store.nextId == old(store.nextId) && State() == old(State())
      ensures outcome.Pass? || (outcome.Fail? && outcome.error.NumberingFailed?) ==>
        old(FieldsCheck()).Success? &&
        store.rows == old(store.rows) + [old(FormRow(store.nextId, now, FieldsCheck().value))] &&
        FieldsCleared() && rows == [] && shownTotal == 0.0
      ensures outcome.Pass? ==>
        Valid() && GenerateNextInvoiceNumber(store.rows) == Success(invoiceNumberText) &&
        invoiceNumberEditable == IsFirstInvoice(store.rows)
      ensures outcome.Fail? && outcome.error.NumberingFailed? ==>
        invoiceNumberText == old(invoiceNumberText) && invoiceNumberEditable == old(invoiceNumberEditable) &&
        serialCounter == old(serialCounter)
    {
      var created := CreateInvoiceFromForm(now);
      if created.Failure? {
        return Fail(FormRejected(created.error));
      }
      outcome := SaveCreated(store, created.value);
    }

    /** The second half of `saveInvoice`: saves the invoice built from the
        form and, once saved, clears the form. */
    method SaveCreated(store: InvoiceStore, invoice: Invoice) returns (outcome: Outcome<SaveInvoiceError>)
      requires store.Valid()
      modifies this, store, invoice`id
      ensures store.Valid()
      ensures outcome.Fail? ==> outcome.error.SaveRejected? || outcome.error.NumberingFailed?
      ensures outcome.Fail? && outcome.error.SaveRejected? ==>
        store.rows == old(store.rows) && store.nextId == old(store.nextId) && State() == old(State()) &&
        invoice.id == old(invoice.id)
      ensures outcome.Pass? || outcome.error.NumberingFailed? ==>
        old(invoice.id).None? && !NumberTaken(old(store.rows), invoice.invoiceNumber) &&
        store.rows == old(store.rows) + [old(RowOf(store.nextId, invoice))] &&
        FieldsCleared() && rows == [] && shownTotal == 0.0
      ensures outcome.Pass? ==>
        Valid() && GenerateNextInvoiceNumber(store.rows) == Success(invoiceNumberText) &&
        invoiceNumberEditable == IsFirstInvoice(store.rows)
      ensures outcome.Fail? && outcome.error.NumberingFailed? ==>
        invoiceNumberText == old(invoiceNumberText) && invoiceNumberEditable == old(invoiceNumberEditable) &&
        serialCounter == old(serialCounter)
    {
      var saved := store.Save(invoice);
      if saved.Fail? {
        return Fail(SaveRejected(saved.error));
      }
      var cleared := ClearForm(store);
      if cleared.Fail? {
        return Fail(NumberingFailed(cleared.error));
      }
      outcome := Pass;
    }
  }

  // ---------------------------------------------------------------------
  // The table

  /** Removing a row takes its price off the column's sum. */
  lemma RemovedRowTotal(rows: seq<ServiceRow>, row: nat)
    requires row < |rows|
    ensures RowsTotal(rows[..row] + rows[row + 1..]) == RowsTotal(rows) - rows[row].price
  {
    assert rows == rows[..row] + [rows[row]] + rows[row + 1..];
    SumRealConcat(rows[..row] + [rows[row]], rows[row + 1..], RowPrice);
    SumRealConcat(rows[..row], rows[row + 1..], RowPrice);
    SumRealSnoc(rows[..row], rows[row], RowPrice);
  }

  /** Renumbering the rows does not change the sum of the price column. */
  lemma {:induction false} RowsTotalIgnoresSerials(a: seq<ServiceRow>, b: seq<ServiceRow>)
    requires |a| == |b|
    requires forall i :: 0 <= i < |a| ==> a[i].price == b[i].price
    ensures RowsTotal(a) == RowsTotal(b)
    decreases |a|
  {
    if |a| > 0 {
      RowsTotalIgnoresSerials(a[..|a| - 1], b[..|b| - 1]);
    }
  }

  /** The cell written for a price reads back as the price rounded to the
      cent, within half a cent of what was typed: the value a row holds. */
  lemma PriceCellReadsBack(price: real)
    requires price > 0.0
    ensures ParseDecimal(PriceCell(price)) == Some(Round2(price))
    ensures price - 0.005 < Round2(price) <= price + 0.005
  {
    FormatFixed2RoundTrip(price);
    Round2Close(price);
  }

  /** The label `clearForm` and the constructor write is the one a zero
      total shows. */
  lemma ZeroTotalText()
    ensures TotalText(0.0) == ZERO_TOTAL
  {
    FormatFixed2Zero();
  }

  /** A price below half a cent passes the "greater than zero" check but
      its row shows 0.00 and adds nothing to the total. */
  lemma TinyPriceShowsZero(price: real)
    requires 0.0 < price < 0.005
    ensures Round2(price) == 0.0
    ensures PriceCell(price) == PriceCell(0.0) == "0.00"
  {
    assert Cents(price) == 0;
    assert Cents(0.0) == 0;
    FormatFixed2Zero();
  }

  // ---------------------------------------------------------------------
  // The validators

  /** Every number below 10^7 written as "INV-" and seven digits passes
      the invoice number check. */
  lemma FormattedNumberAccepted(n: int)
    requires 0 <= n < Pow10(NUMBER_WIDTH)
    ensures CheckInvoiceNumber(PREFIX + FormatZeroPadded(n, NUMBER_WIDTH)) == Pass
  {
    var s := PREFIX + FormatZeroPadded(n, NUMBER_WIDTH);
    FormatWidth(n, NUMBER_WIDTH);
    assert s[..|PREFIX|] == PREFIX;
    assert s[|PREFIX|..] == FormatZeroPadded(n, NUMBER_WIDTH);
  }

  /** Every number the check accepts is "INV-" and a seven-digit rendering
      of a number below 10^7. */
  lemma AcceptedNumberIsFormatted(s: string)
    requires CheckInvoiceNumber(s) == Pass
    ensures DigitsValue(s[|PREFIX|..]) < Pow10(NUMBER_WIDTH)
    ensures s == PREFIX + FormatZeroPadded(DigitsValue(s[|PREFIX|..]), NUMBER_WIDTH)
  {
    var digits := s[|PREFIX|..];
    DigitsValueBound(digits);
    FormatOfDigits(digits);
    assert s == s[..|PREFIX|] + digits;
  }

  /** The five-digit seed proposed for the first invoice fails the
      seven-digit check. */
  lemma SeedRejected()
    ensures CheckInvoiceNumber(FIRST_NUMBER) == Fail(MalformedInvoiceNumber)
  {
  }

  /** While the last invoice number passes the check and is below
      "INV-9999999", the number generated after it passes too. */
  lemma GeneratedNumberAccepted(rows: seq<InvoiceRow>)
    requires |rows| > 0
    requires forall i, j :: 0 <= i < j < |rows| ==> rows[i].id < rows[j].id
    requires CheckInvoiceNumber(rows[|rows| - 1].invoiceNumber) == Pass
    requires DigitsValue(rows[|rows| - 1].invoiceNumber[|PREFIX|..]) + 1 < Pow10(NUMBER_WIDTH)
    ensures GenerateNextInvoiceNumber(rows).Success?
    ensures CheckInvoiceNumber(GenerateNextInvoiceNumber(rows).value) == Pass
  {
    var last := rows[|rows| - 1].invoiceNumber;
    var n := DigitsValue(last[|PREFIX|..]);
    AcceptedNumberIsFormatted(last);
    assert Pow10(NUMBER_WIDTH) == 10000000;
    GenerateAfterLast(rows, n);
    FormattedNumberAccepted(n + 1);
  }

  /** After "INV-9999999" the generated number has eight digits and fails
      the check. */
  lemma GeneratedNumberPastLimit(rows: seq<InvoiceRow>)
    requires |rows| > 0
    requires forall i, j :: 0 <= i < j < |rows| ==> rows[i].id < rows[j].id
    requires CheckInvoiceNumber(rows[|rows| - 1].invoiceNumber) == Pass
    requires DigitsValue(rows[|rows| - 1].invoiceNumber[|PREFIX|..]) + 1 == Pow10(NUMBER_WIDTH)
    ensures GenerateNextInvoiceNumber(rows).Success?
    ensures CheckInvoiceNumber(GenerateNextInvoiceNumber(rows).value) == Fail(MalformedInvoiceNumber)
  {
    var last := rows[|rows| - 1].invoiceNumber;
    var n := DigitsValue(last[|PREFIX|..]);
    AcceptedNumberIsFormatted(last);
    assert Pow10(NUMBER_WIDTH) == 10000000;
    GenerateAfterLast(rows, n);
    FormatOverflowsWidth(n + 1, NUMBER_WIDTH);
  }

  /** The contact check accepts exactly the ten-digit renderings of the
      numbers below 10^10. */
  lemma ContactNumberIsTenDigits(s: string, n: int)
    requires 0 <= n < Pow10(CONTACT_DIGITS)
    ensures IsContactNumber(FormatZeroPadded(n, CONTACT_DIGITS))
    ensures IsContactNumber(s) ==> s == FormatZeroPadded(DigitsValue(s), CONTACT_DIGITS)
  {
    FormatWidth(n, CONTACT_DIGITS);
    if IsContactNumber(s) {
      FormatOfDigits(s);
    }
  }

  /** A mileage typed as an `int` is accepted exactly when it is not
      negative, and is then taken as typed. */
  lemma MileageAcceptedIffNonNegative(n: int)
    requires IsInt32(n)
    ensures CheckMileage(FormatZeroPadded(n, 0)) == if n >= 0 then Success(n) else Failure(NegativeMileage)
  {
    ParseFormatRoundTrip(n, 0);
  }

  /** The customer checks pass exactly when the number passes its check,
      the name and vehicle are present, the contact is ten digits and the
      mileage is a non-negative `int`. */
  lemma CustomerFieldsAccepted(invoiceNumberText: string, customerNameText: string,
                               contactNumberText: string, vehicleNumberText: string,
                               mileageText: string)
    ensures CheckCustomerFields(invoiceNumberText, customerNameText, contactNumberText,
                                vehicleNumberText, mileageText).Success? <==>
      IsInvoiceNumber(Trim(invoiceNumberText)) && |Trim(customerNameText)| > 0 &&
      IsContactNumber(Trim(contactNumberText)) && |Trim(vehicleNumberText)| > 0 &&
      ParseInt(Trim(mileageText)).Success? && ParseInt(Trim(mileageText)).value >= 0
  {
  }

  /** The service checks pass exactly when the trimmed description has at
      least three characters and the price reads as a positive number. */
  lemma ServiceAccepted(descriptionText: string, priceText: string)
    ensures CheckService(descriptionText, priceText).Success? <==>
      |Trim(descriptionText)| >= MIN_DESCRIPTION_LENGTH &&
      ParseDecimal(Trim(priceText)).Some? && ParseDecimal(Trim(priceText)).value > 0.0
  {
  }
}
